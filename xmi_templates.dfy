/** The XMI 1.1 pieces the exporter writes for one attribute, one class, one
    association and one diagram element. The fixed text comes from a
    `Boilerplate` record; the values taken from the graph are explicit
    arguments, each written through a small named piece so that where it lands
    can be stated. */
module XmiTemplates {
  import opened JsValues
  import opened Decimal
  import opened Text
  import opened Diagram
  import opened XmiBoilerplate

  /** `<UML:TaggedValue tag="tag" value="value"/>`. */
  function TagValue(tag: string, value: string): string
  {
    "<UML:TaggedValue tag=\"" + tag + "\" value=\"" + value + "\"/>"
  }

  /** The export id of the class for node `id`. */
  function ClassRef(id: string): string
  {
    "EAID_MYCLASS_00" + id
  }

  /** The `xmi.id` attribute of a class element. */
  function ClassDecl(id: string): string
  {
    "xmi.id=\"" + ClassRef(id) + "\""
  }

  /** The `type` attribute of an association end naming the class of `id`. */
  function EndRef(id: string): string
  {
    "type=\"" + ClassRef(id) + "\""
  }

  /** The `subject` attribute of a diagram element naming the class of `id`. */
  function Subject(id: string): string
  {
    "subject=\"" + ClassRef(id) + "\""
  }

  // ---------------------------------------------------------------- attributes

  /** The classifier reference of attribute `i` of node `id`: index and id are
      written side by side, with nothing between them. */
  function AttributeIdref(i: nat, id: string): string
  {
    "eaxmiid" + NatToString(i) + id
  }

  function ClassifierIdref(i: nat, id: string): string
  {
    "xmi.idref=\"" + AttributeIdref(i, id) + "\""
  }

  /** The `ea_guid` of attribute `i` of node `id`: here the id comes first. */
  function AttributeGuid(b: Boilerplate, i: nat, id: string): string
  {
    b.guidPrefix + id + NatToString(i) + "}"
  }

  /** The `UML:Attribute` element for the attribute line `name`, at index `i`
      of node `id`, piece by piece. */
  function AttributePieces(b: Boilerplate, name: string, i: nat, id: string): seq<string>
  {
    ["<UML:Attribute name=\"", name, b.attributeHead, ClassifierIdref(i, id), b.attributeTags,
     TagValue("ea_guid", AttributeGuid(b, i, id)), b.attributeClose]
  }

  function AttributeBlock(b: Boilerplate, name: string, i: nat, id: string): string
  {
    Concat(AttributePieces(b, name, i, id))
  }

  function AttributeBlocks(b: Boilerplate, attrs: seq<string>, id: string): (r: seq<string>)
    ensures |r| == |attrs|
    ensures forall k :: 0 <= k < |attrs| ==> r[k] == AttributeBlock(b, attrs[k], k, id)
  {
    seq(|attrs|, k requires 0 <= k < |attrs| => AttributeBlock(b, attrs[k], k, id))
  }

  /** The attribute elements of node `id`, one per line, in order. */
  function AttributesXml(b: Boilerplate, attrs: seq<string>, id: string): string
  {
    Concat(AttributeBlocks(b, attrs, id))
  }

  // ------------------------------------------------------------------- classes

  /** The class element up to its features. */
  function ClassHeadPieces(b: Boilerplate, n: Node): seq<string>
  {
    [" <UML:Class name=\"", Template(n.data.className), "\" ", ClassDecl(n.id), b.classHeadTags,
     TagValue("ea_localid", "nodo-" + n.id), b.classTailTags]
  }

  function ClassHead(b: Boilerplate, n: Node): string
  {
    Concat(ClassHeadPieces(b, n))
  }

  /** The `UML:Class` element for node `n`. */
  function ClassBlock(b: Boilerplate, n: Node): string
  {
    ClassHead(b, n) + AttributesXml(b, n.data.attributes, n.id) + b.classClose
  }

  // -------------------------------------------------------------- associations

  /** Aggregation kind of the target end: "none" for "Association", "shared"
      for "Aggregation" and "composite" for every other type. */
  function TargetAggregation(relType: string): (r: string)
    ensures r == "none" || r == "shared" || r == "composite"
    ensures r == "none" <==> relType == "Association"
    ensures r == "shared" <==> relType == "Aggregation"
    ensures r == "composite" <==> relType != "Association" && relType != "Aggregation"
  {
    if relType == "Association" then "none"
    else if relType == "Aggregation" then "shared"
    else "composite"
  }

  /** Aggregation kind written on every source end, two trailing blanks included. */
  const SourceAggregation := "none  "

  function Multiplicity(value: string): string
  {
    "multiplicity=\"" + value + "\""
  }

  function Aggregation(kind: string): string
  {
    "aggregation=\"" + kind + "\""
  }

  /** One `UML:AssociationEnd`. */
  function EndPieces(b: Boilerplate, mult: string, kind: string, id: string, tags: string): seq<string>
  {
    ["<UML:AssociationEnd visibility=\"public\" ", Multiplicity(mult), " ", Aggregation(kind),
     b.endAttributes, EndRef(id), ">", tags, "</UML:AssociationEnd>"]
  }

  function AssociationEnd(b: Boilerplate, mult: string, kind: string, id: string, tags: string): string
  {
    Concat(EndPieces(b, mult, kind, id, tags))
  }

  function SourceEnd(b: Boilerplate, e: Edge): string
  {
    AssociationEnd(b, e.data.startLabel, SourceAggregation, e.source, b.sourceEndTags)
  }

  function TargetEnd(b: Boilerplate, e: Edge): string
  {
    AssociationEnd(b, e.data.endLabel, TargetAggregation(e.data.relType), e.target, b.targetEndTags)
  }

  /** The local id of association `i`. */
  function AssociationLocalId(e: Edge, i: nat): string
  {
    e.id + "-" + NatToString(i)
  }

  /** The `UML:Association` element for edge `e` at index `i`. */
  function AssociationPieces(b: Boilerplate, e: Edge, i: nat): seq<string>
  {
    ["<UML:Association xmi.id=\"", e.id, b.associationHead, TagValue("ea_type", e.data.relType),
     b.associationStyleTags, TagValue("ea_localid", AssociationLocalId(e, i)), b.associationNameTags,
     TagValue("ea_sourceID", "nodo-" + e.source), TagValue("ea_targetID", "nodo-" + e.target),
     b.associationTailTags, SourceEnd(b, e), TargetEnd(b, e), b.associationClose]
  }

  function AssociationBlock(b: Boilerplate, e: Edge, i: nat): string
  {
    Concat(AssociationPieces(b, e, i))
  }

  // ---------------------------------------------------------- diagram elements

  /** The box of a node: offsets 30 and 50 from x, 90 and 60 from y. */
  function Geometry(p: Position): string
  {
    Concat(["Left=", IntToString(p.x + 30), ";Top=", IntToString(p.y + 90),
            ";Right=", IntToString(p.x + 50), ";Bottom=", IntToString(p.y + 60), ";"])
  }

  function SeqNo(i: nat): string
  {
    "seqno=\"" + NatToString(i + 1) + "\""
  }

  /** The `UML:DiagramElement` for node `n` at index `i`. */
  function GeometryPieces(b: Boilerplate, n: Node, i: nat): seq<string>
  {
    ["<UML:DiagramElement geometry=\"", Geometry(n.position), "\" ", Subject(n.id), " ", SeqNo(i),
     b.geometryClose]
  }

  function GeometryBlock(b: Boilerplate, n: Node, i: nat): string
  {
    Concat(GeometryPieces(b, n, i))
  }

  // ------------------------------------------------- where the derived values go

  /** Distinct node ids give distinct class export ids. */
  lemma ClassRefInjective(a: string, b: string)
    requires a != b
    ensures ClassRef(a) != ClassRef(b)
  {
    assert ClassRef(a)[15..] == a && ClassRef(b)[15..] == b;
  }

  /** A class element declares its export id. */
  lemma ClassDeclaresId(b: Boilerplate, n: Node)
    ensures Occurs(ClassDecl(n.id), ClassBlock(b, n))
  {
    PieceOccurs(ClassHeadPieces(b, n), 3);
    OccursInPart(ClassDecl(n.id), ClassHead(b, n), AttributesXml(b, n.data.attributes, n.id), b.classClose);
  }

  /** Attribute line `k` of node `n` becomes the k-th attribute element of the
      class: right after the class head and the elements of lines 0 to k-1. */
  lemma AttributeInClass(b: Boilerplate, n: Node, k: nat)
    requires k < |n.data.attributes|
    ensures OccursAt(AttributeBlock(b, n.data.attributes[k], k, n.id), ClassBlock(b, n),
                     |ClassHead(b, n)| + |Concat(AttributeBlocks(b, n.data.attributes, n.id)[..k])|)
  {
    var blocks := AttributeBlocks(b, n.data.attributes, n.id);
    ConcatAt(blocks, k);
    OccursShift(blocks[k], ClassHead(b, n), Concat(blocks), |Concat(blocks[..k])|);
    OccursWiden(blocks[k], ClassHead(b, n) + Concat(blocks), b.classClose, |ClassHead(b, n)| + |Concat(blocks[..k])|);
  }

  /** The attribute element carries its classifier idref and guid, both built
      from the attribute's index and the node id. */
  lemma AttributeCarriesIds(b: Boilerplate, name: string, i: nat, id: string)
    ensures Occurs(ClassifierIdref(i, id), AttributeBlock(b, name, i, id))
    ensures Occurs(TagValue("ea_guid", AttributeGuid(b, i, id)), AttributeBlock(b, name, i, id))
  {
    PieceOccurs(AttributePieces(b, name, i, id), 3);
    PieceOccurs(AttributePieces(b, name, i, id), 5);
  }

  /** The idref puts index and id side by side, so attribute 1 of node "12"
      and attribute 11 of node "2" get the same classifier idref. */
  lemma AttributeIdrefCollision()
    ensures AttributeIdref(1, "12") == AttributeIdref(11, "2")
  {
    assert NatToString(11) == NatToString(1) + [DigitChar(1)];
  }

  /** The guid puts id and index side by side too, so attribute 12 of node "1"
      and attribute 2 of node "11" get the same `ea_guid`. */
  lemma AttributeGuidCollision(b: Boilerplate)
    ensures AttributeGuid(b, 12, "1") == AttributeGuid(b, 2, "11")
  {
    assert NatToString(12) == NatToString(1) + [DigitChar(2)];
  }

  /** An association end states its multiplicity, its aggregation kind and
      the export id of the class it names. */
  lemma EndFields(b: Boilerplate, mult: string, kind: string, id: string, tags: string)
    ensures Occurs(Multiplicity(mult), AssociationEnd(b, mult, kind, id, tags))
    ensures Occurs(Aggregation(kind), AssociationEnd(b, mult, kind, id, tags))
    ensures Occurs(EndRef(id), AssociationEnd(b, mult, kind, id, tags))
  {
    PieceOccurs(EndPieces(b, mult, kind, id, tags), 1);
    PieceOccurs(EndPieces(b, mult, kind, id, tags), 3);
    PieceOccurs(EndPieces(b, mult, kind, id, tags), 5);
  }

  /** An association element holds its local id. */
  lemma AssociationHoldsLocalId(b: Boilerplate, e: Edge, i: nat)
    ensures Occurs(TagValue("ea_localid", AssociationLocalId(e, i)), AssociationBlock(b, e, i))
  {
    PieceOccurs(AssociationPieces(b, e, i), 5);
  }

  /** An association element holds its source end followed directly by its
      target end. */
  lemma AssociationHoldsEnds(b: Boilerplate, e: Edge, i: nat)
    ensures Occurs(SourceEnd(b, e) + TargetEnd(b, e), AssociationBlock(b, e, i))
  {
    AdjacentPieces(AssociationPieces(b, e, i), 10);
  }

  /** The source end copies the start label, is always aggregation "none  "
      and names the source's class; the target end copies the end label,
      carries the type's aggregation kind and names the target's class. */
  lemma AssociationEndsFields(b: Boilerplate, e: Edge)
    ensures Occurs(Multiplicity(e.data.startLabel), SourceEnd(b, e))
    ensures Occurs(Aggregation(SourceAggregation), SourceEnd(b, e))
    ensures Occurs(EndRef(e.source), SourceEnd(b, e))
    ensures Occurs(Multiplicity(e.data.endLabel), TargetEnd(b, e))
    ensures Occurs(Aggregation(TargetAggregation(e.data.relType)), TargetEnd(b, e))
    ensures Occurs(EndRef(e.target), TargetEnd(b, e))
  {
    EndFields(b, e.data.startLabel, SourceAggregation, e.source, b.sourceEndTags);
    EndFields(b, e.data.endLabel, TargetAggregation(e.data.relType), e.target, b.targetEndTags);
  }

  /** The box is written as the left and top offsets 30 and 90 and the
      right and bottom offsets 50 and 60 from the node's position. */
  lemma GeometryText(p: Position)
    ensures Geometry(p) == "Left=" + IntToString(p.x + 30) + ";Top=" + IntToString(p.y + 90)
                           + ";Right=" + IntToString(p.x + 50) + ";Bottom=" + IntToString(p.y + 60) + ";"
  {
    ConcatNine("Left=", IntToString(p.x + 30), ";Top=", IntToString(p.y + 90),
               ";Right=", IntToString(p.x + 50), ";Bottom=", IntToString(p.y + 60), ";");
  }

  /** A diagram element writes the node's box, names the node's class and
      numbers the node from 1. */
  lemma GeometryFields(b: Boilerplate, n: Node, i: nat)
    ensures Occurs(Geometry(n.position), GeometryBlock(b, n, i))
    ensures Occurs(Subject(n.id), GeometryBlock(b, n, i))
    ensures Occurs(SeqNo(i), GeometryBlock(b, n, i))
  {
    PieceOccurs(GeometryPieces(b, n, i), 1);
    PieceOccurs(GeometryPieces(b, n, i), 3);
    PieceOccurs(GeometryPieces(b, n, i), 5);
  }
}

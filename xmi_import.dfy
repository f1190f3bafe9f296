/** The XMI importer: from a parsed XMI 1.1 document to class nodes and
    relationship edges, and the decision whether a board is created. */
module XmiImport {
  import opened JsValues
  import opened Decimal
  import opened Diagram
  import opened Xml

  /** The model root that Enterprise Architect writes as a class of its own. */
  const RootClassName := "EARootClass"

  predicate IsUserClass(cls: Element)
  {
    GetAttribute(cls, "name") != Some(RootClassName)
  }

  /** The class elements left after dropping the model root, in order. */
  function UserClasses(cs: seq<Element>): (r: seq<Element>)
    ensures |r| <= |cs|
    ensures forall e :: e in r <==> e in cs && IsUserClass(e)
    decreases |cs|
  {
    if cs == [] then [] else (if IsUserClass(cs[0]) then [cs[0]] else []) + UserClasses(cs[1..])
  }

  /** The filter keeps document order: it works on each part of a split list
      on its own. */
  lemma {:induction false} UserClassesAppend(a: seq<Element>, b: seq<Element>)
    ensures UserClasses(a + b) == UserClasses(a) + UserClasses(b)
    decreases |a|
  {
    if a == [] {
      assert a + b == b;
    } else {
      assert (a + b)[0] == a[0];
      assert (a + b)[1..] == a[1..] + b;
      UserClassesAppend(a[1..], b);
    }
  }

  /** How many of the class elements are the model root. */
  function RootCount(cs: seq<Element>): nat
    decreases |cs|
  {
    if cs == [] then 0 else (if IsUserClass(cs[0]) then 0 else 1) + RootCount(cs[1..])
  }

  /** Dropping the model root removes exactly the root elements. */
  lemma {:induction false} UserClassCount(cs: seq<Element>)
    ensures |UserClasses(cs)| + RootCount(cs) == |cs|
    decreases |cs|
  {
    if cs != [] {
      UserClassCount(cs[1..]);
    }
  }

  /** "+ name: type" for a `UML:Attribute`; a falsy type reads "string". */
  function FormatAttribute(attr: Element): string
  {
    "+ " + Template(GetAttribute(attr, "name")) + ": " + OrDefault(GetAttribute(attr, "type"), "string")
  }

  /** "+ name(): returnType" for a `UML:Method`; a falsy return type reads "void". */
  function FormatMethod(meth: Element): string
  {
    "+ " + Template(GetAttribute(meth, "name")) + "(): " + OrDefault(GetAttribute(meth, "returnType"), "void")
  }

  /** An attribute line starts with "+ ", the name ("null" when the element has
      none) and ": ", and ends with the type, or with "string" when the type
      is missing or empty. */
  lemma AttributeLine(attr: Element)
    ensures "+ " + Template(GetAttribute(attr, "name")) + ": " <= FormatAttribute(attr)
    ensures "name" !in attr.attrs ==> "+ null: " <= FormatAttribute(attr)
    ensures var line := FormatAttribute(attr);
      !Truthy(GetAttribute(attr, "type")) ==> |line| >= 8 && line[|line| - 8..] == ": string"
    ensures var line := FormatAttribute(attr); var t := GetAttribute(attr, "type");
      Truthy(t) ==> |line| >= |t.value| && line[|line| - |t.value|..] == t.value
  {
    var head := "+ " + Template(GetAttribute(attr, "name")) + ": ";
    var tail := OrDefault(GetAttribute(attr, "type"), "string");
    assert FormatAttribute(attr) == head + tail;
    assert (head + tail)[|head + tail| - |tail|..] == tail;
  }

  /** A method line starts with "+ ", the name ("null" when the element has
      none) and "(): ", and ends with the return type, or with "void" when it
      is missing or empty. */
  lemma MethodLine(meth: Element)
    ensures "+ " + Template(GetAttribute(meth, "name")) + "(): " <= FormatMethod(meth)
    ensures "name" !in meth.attrs ==> "+ null(): " <= FormatMethod(meth)
    ensures var line := FormatMethod(meth);
      !Truthy(GetAttribute(meth, "returnType")) ==> |line| >= 8 && line[|line| - 8..] == "(): void"
    ensures var line := FormatMethod(meth); var t := GetAttribute(meth, "returnType");
      Truthy(t) ==> |line| >= |t.value| && line[|line| - |t.value|..] == t.value
  {
    var head := "+ " + Template(GetAttribute(meth, "name")) + "(): ";
    var tail := OrDefault(GetAttribute(meth, "returnType"), "void");
    assert FormatMethod(meth) == head + tail;
    assert (head + tail)[|head + tail| - |tail|..] == tail;
  }

  /** The node for the user class at position `index` of the filtered list. */
  function DecodeClass(cls: Element, index: nat, pos: Position): (r: Node)
    ensures r.id == NatToString(index + 1) && r.kind == ClassNodeKind && r.position == pos
    ensures r.data.className == GetAttribute(cls, "name")
    ensures var attrs := ElementsByTag(cls, "UML:Attribute");
      |r.data.attributes| == |attrs|
      && forall j :: 0 <= j < |attrs| ==> r.data.attributes[j] == FormatAttribute(attrs[j])
    ensures var meths := ElementsByTag(cls, "UML:Method");
      |r.data.methods| == |meths|
      && forall j :: 0 <= j < |meths| ==> r.data.methods[j] == FormatMethod(meths[j])
  {
    var attrs := ElementsByTag(cls, "UML:Attribute");
    var meths := ElementsByTag(cls, "UML:Method");
    Node(
      NatToString(index + 1),
      ClassNodeKind,
      pos,
      NodeData(
        GetAttribute(cls, "name"),
        seq(|attrs|, j requires 0 <= j < |attrs| => FormatAttribute(attrs[j])),
        seq(|meths|, j requires 0 <= j < |meths| => FormatMethod(meths[j]))))
  }

  /** The user classes of the document, wherever they are nested. */
  function DocumentClasses(doc: Document): seq<Element>
  {
    UserClasses(DocumentElementsByTag(doc, "UML:Class"))
  }

  /** The decoded nodes; `place(k)` stands for the random position drawn for
      the k-th of them. */
  function DecodeNodes(doc: Document, place: nat -> Position): (r: seq<Node>)
    ensures |r| == |DocumentClasses(doc)|
    ensures forall k :: 0 <= k < |r| ==> r[k] == DecodeClass(DocumentClasses(doc)[k], k, place(k))
    ensures forall n :: n in r ==> n.data.className != Some(RootClassName)
  {
    var kept := DocumentClasses(doc);
    seq(|kept|, k requires 0 <= k < |kept| => DecodeClass(kept[k], k, place(k)))
  }

  /** The node count is the class count less the model roots. */
  lemma NodeCount(doc: Document, place: nat -> Position)
    ensures |DecodeNodes(doc, place)| + RootCount(DocumentElementsByTag(doc, "UML:Class"))
         == |DocumentElementsByTag(doc, "UML:Class")|
  {
    UserClassCount(DocumentElementsByTag(doc, "UML:Class"));
  }

  /** Node ids are the numerals "1" to "n" in document order: pairwise
      distinct, and they read back as their 1-based position. */
  lemma DecodedIds(doc: Document, place: nat -> Position)
    ensures DistinctIds(DecodeNodes(doc, place))
    ensures forall k :: 0 <= k < |DecodeNodes(doc, place)| ==> ParseNat(DecodeNodes(doc, place)[k].id) == k + 1
  {
    var r := DecodeNodes(doc, place);
    forall i, j | 0 <= i < j < |r|
      ensures r[i].id != r[j].id
    {
      NatToStringInjective(i + 1, j + 1);
    }
    forall k | 0 <= k < |r|
      ensures ParseNat(r[k].id) == k + 1
    {
      ParseNatToString(k + 1);
    }
  }

  /** The ids ignore everything in the source but the number of user classes. */
  lemma DecodedIdsIgnoreSource(doc1: Document, doc2: Document, place1: nat -> Position, place2: nat -> Position)
    requires |DocumentClasses(doc1)| == |DocumentClasses(doc2)|
    ensures Ids(DecodeNodes(doc1, place1)) == Ids(DecodeNodes(doc2, place2))
  {
  }

  /** The text of the first `ref` below an endpoint element. */
  function EndpointRef(endpoint: Element): Opt<string>
  {
    FirstTextByTag(endpoint, "ref")
  }

  /** An association end names both endpoints: it has a `UML:Source` and a
      `UML:Target` below it, and the first `ref` below each has text. */
  predicate HasEndpoints(assoc: Element)
  {
    var sources := ElementsByTag(assoc, "UML:Source");
    var targets := ElementsByTag(assoc, "UML:Target");
    |sources| > 0 && |targets| > 0 && Truthy(EndpointRef(sources[0])) && Truthy(EndpointRef(targets[0]))
  }

  /** The edge for one `UML:AssociationEnd`, or nothing when an endpoint is
      missing. */
  function DecodeEdge(assoc: Element): (r: Opt<Edge>)
    ensures r.Some? <==> HasEndpoints(assoc)
    ensures r.Some? ==>
      var e := r.value;
      && e.source == EndpointRef(ElementsByTag(assoc, "UML:Source")[0]).value
      && e.target == EndpointRef(ElementsByTag(assoc, "UML:Target")[0]).value
      && e.source != "" && e.target != ""
      && e.id == "xy-edge__" + e.source + "right-" + e.target + "left"
      && e.sourceHandle == Some("right") && e.targetHandle == Some("left")
      && e.kind == StartEndKind
      && e.data.startLabel == OrDefault(FirstTextByTag(assoc, "UML:StartLabel"), DefaultStartLabel)
      && e.data.endLabel == OrDefault(FirstTextByTag(assoc, "UML:EndLabel"), DefaultEndLabel)
      && e.data.relType == OrDefault(GetAttribute(assoc, "type"), DefaultRelType)
  {
    var sourceElement := First(ElementsByTag(assoc, "UML:Source"));
    var targetElement := First(ElementsByTag(assoc, "UML:Target"));
    if sourceElement.None? || targetElement.None? then None
    else
      var source := EndpointRef(sourceElement.value);
      var target := EndpointRef(targetElement.value);
      if !Truthy(source) || !Truthy(target) then None
      else
        var data := EdgeData(
          OrDefault(FirstTextByTag(assoc, "UML:StartLabel"), DefaultStartLabel),
          OrDefault(FirstTextByTag(assoc, "UML:EndLabel"), DefaultEndLabel),
          OrDefault(GetAttribute(assoc, "type"), DefaultRelType));
        Some(Edge(
          "xy-edge__" + source.value + "right-" + target.value + "left",
          source.value, target.value, Some("right"), Some("left"), StartEndKind, data))
  }

  /** `ends.map(decode).filter(edge => edge !== null)`. */
  function DecodeEdgesFrom(ends: seq<Element>): (r: seq<Edge>)
    ensures |r| <= |ends|
    ensures forall e :: e in r ==> exists a :: a in ends && DecodeEdge(a) == Some(e)
    decreases |ends|
  {
    if ends == [] then []
    else
      var rest := DecodeEdgesFrom(ends[1..]);
      match DecodeEdge(ends[0])
      case None => rest
      case Some(e) => [e] + rest
  }

  /** How many association ends name both endpoints. */
  function UsableCount(ends: seq<Element>): nat
    decreases |ends|
  {
    if ends == [] then 0 else (if HasEndpoints(ends[0]) then 1 else 0) + UsableCount(ends[1..])
  }

  /** One edge per association end that names both endpoints. */
  lemma {:induction false} EdgeCount(ends: seq<Element>)
    ensures |DecodeEdgesFrom(ends)| == UsableCount(ends)
    decreases |ends|
  {
    if ends != [] {
      EdgeCount(ends[1..]);
    }
  }

  /** Decoding a split list of ends decodes each part on its own. */
  lemma {:induction false} DecodeEdgesAppend(a: seq<Element>, b: seq<Element>)
    ensures DecodeEdgesFrom(a + b) == DecodeEdgesFrom(a) + DecodeEdgesFrom(b)
    decreases |a|
  {
    if a == [] {
      assert a + b == b;
    } else {
      assert (a + b)[0] == a[0];
      assert (a + b)[1..] == a[1..] + b;
      DecodeEdgesAppend(a[1..], b);
    }
  }

  /** An end without both endpoints is skipped: the edges decoded from the
      others are exactly those decoded without it. */
  lemma SkipNotAbort(a: seq<Element>, bad: Element, b: seq<Element>)
    requires !HasEndpoints(bad)
    ensures DecodeEdgesFrom(a + [bad] + b) == DecodeEdgesFrom(a + b)
  {
    SkipOne(bad);
    DecodeEdgesAppend(a + [bad], b);
    DecodeEdgesAppend(a, [bad]);
    DecodeEdgesAppend(a, b);
    assert DecodeEdgesFrom(a) + [] == DecodeEdgesFrom(a);
  }

  lemma SkipOne(bad: Element)
    requires !HasEndpoints(bad)
    ensures DecodeEdgesFrom([bad]) == []
  {
    assert [bad][1..] == [];
  }

  function DecodeEdges(doc: Document): seq<Edge>
  {
    DecodeEdgesFrom(DocumentElementsByTag(doc, "UML:AssociationEnd"))
  }

  /** What importing a document leads to: a board with a suggested title, the
      "no classes or relationships" message, or a failure when edges were
      found but no class (the title reads the first node, which is missing). */
  datatype ImportResult =
    | CreateBoard(title: string, nodes: seq<Node>, edges: seq<Edge>)
    | NothingFound
    | Crashed

  function ProcessXml(doc: Document, place: nat -> Position): (r: ImportResult)
    ensures var nodes := DecodeNodes(doc, place); var edges := DecodeEdges(doc);
      && (r.NothingFound? <==> |nodes| == 0 && |edges| == 0)
      && (r.Crashed? <==> |nodes| == 0 && |edges| > 0)
      && (r.CreateBoard? <==> |nodes| > 0)
      && (r.CreateBoard? ==>
            r.nodes == nodes && r.edges == edges
            && r.title == "Tablero de " + Template(nodes[0].data.className))
  {
    var nodes := DecodeNodes(doc, place);
    var edges := DecodeEdges(doc);
    if |nodes| > 0 || |edges| > 0 then
      if |nodes| == 0 then Crashed
      else CreateBoard("Tablero de " + Template(nodes[0].data.className), nodes, edges)
    else NothingFound
  }

  /** A board is created exactly when some user class is found. */
  lemma BoardNeedsAClass(doc: Document, place: nat -> Position)
    ensures ProcessXml(doc, place).CreateBoard? <==> |DocumentClasses(doc)| > 0
  {
  }
}

# Diagramador: UML class diagrams to and from XMI 1.1

Diagramador is a web editor for UML class diagrams. A board is a graph:
- each class is a node: an id, a position, a name, and attribute and method lines;
- each relationship is an edge: source and target node ids, two multiplicity labels and a relationship type.

This project models three parts of that editor and proves properties about them.

- **The exporter** (`saveXMLFile`, `atribute` and `association` in `BoardPage.jsx`) writes a board as an XMI 1.1 document in the Enterprise Architect dialect. The document is:
  1. a fixed header;
  2. one `UML:Class` per node, each holding one `UML:Attribute` per attribute line;
  3. one `UML:Association` per edge;
  4. a fixed diagram header;
  5. one `UML:DiagramElement` per node, giving the node's box and sequence number;
  6. a fixed footer.

  Three methods follow the code's string accumulators with `while` loops. Each is proved equal to a function:
  - `XmiExport.Association` returns `XmiExport.AssociationsXml`, the association elements of the edges in order;
  - `XmiExport.AppendClass`, called once per node, extends the class text by exactly `XmiTemplates.ClassBlock` of that node;
  - `XmiExport.BuildXml` returns `XmiExport.Document`, the whole file.

  The lemmas about `Document` then say where every derived value lands.
- **The importer** (`processXml` in `Board.jsx`) reads an already-parsed XMI tree, modelled in module `Xml` with `getElementsByTagName` as a preorder descendant search. It:
  - drops the `EARootClass` model root;
  - numbers the remaining classes "1" to "n";
  - formats their attribute and method lines;
  - turns each `UML:AssociationEnd` that names both endpoints into an edge;
  - creates a board, reports "nothing found", or fails when edges exist but no class does.
- **The editor operations**:
  - connecting two classes, with its guard and defaults;
  - adding a class, with the class `NodeCounter` holding the module-level counter;
  - dropping a dragged class;
  - saving an edited class or relationship;
  - deleting the removed classes from the stored list.

The fixed text of the document lives in the record `XmiBoilerplate.Boilerplate`.
- The templates, the methods `Association`, `AppendClass` and `BuildXml`, and every lemma are stated for any such record.
- `XmiExport.SaveXmlFile` fixes it to `EnterpriseArchitect`, which is the dialect's text with the tagged-value lists shortened.

JavaScript value conventions are explicit in module `JsValues`:
- `Opt` stands for a value that may be missing. That is `null` from `getAttribute` and `undefined` from `[0]?.textContent` or an absent property.
- `Truthy` and `OrDefault` model `a || d`, which also replaces the empty string.
- `Template` models `${x}` for a value that is a string or `null`, which renders as the text `null`. The code only interpolates `getAttribute` results that way.

Numbers become text through `Decimal.NatToString` and `Decimal.IntToString`.

Some consequences of the code's lookups:
- A `UML:Attribute` or `UML:Method` element without a `name` is formatted as `+ null: …` or `+ null(): …` (Board.jsx:190, 193).
- A `UML:Class` without a `name` gets a missing class name. It is exported as `name="null"`, and a board it heads is titled `Tablero de null`.
- Attributes and methods are looked up among all descendants of a class element (`getElementsByTagName`), not only among its children.

## Model

| member | source | states |
|---|---|---|
| JsValues.OrDefault | src/pages/Board.jsx:236-238 | `a \|\| d` yields the value when it is present and non-empty, and the default otherwise, so an empty string is also replaced |
| JsValues.TemplateConflatesNull | src/pages/Board.jsx:190 | a missing value and the string "null" render alike, and nothing else renders as "null" |
| JsValues.OrDefaultStable | src/pages/BoardPage.jsx:99-101 | with a non-empty default the result is never empty, and defaulting it again changes nothing |
| Decimal.IntToStringInjective | src/pages/BoardPage.jsx:359-363 | different coordinates are written as different texts, negatives included |
| Decimal.ParseNatToString | src/pages/Board.jsx:203 | the numeral `(index + 1).toString()` reads back as the number it was made from |
| Decimal.NatToStringInjective | src/pages/Board.jsx:203 | different numbers get different numerals |
| XmiImport.UserClasses | src/pages/Board.jsx:186-187 | the kept classes are exactly the class elements whose name is not "EARootClass", and there are no more of them than there were elements |
| XmiImport.UserClassesAppend | src/pages/Board.jsx:186-187 | the filter works on each part of a split list on its own, so the kept classes stay in document order |
| XmiImport.UserClassCount | src/pages/Board.jsx:186-187 | the user classes plus the model roots account for every class element |
| XmiImport.AttributeLine | src/pages/Board.jsx:189-191 | an attribute line starts with "+ ", the name, or "null" when there is none, and ": ", and ends with the type, or with ": string" when the type is missing or empty |
| XmiImport.MethodLine | src/pages/Board.jsx:192-194 | a method line starts with "+ ", the name, or "null" when there is none, and "(): ", and ends with the return type, or with "(): void" when it is missing or empty |
| XmiImport.DecodeClass | src/pages/Board.jsx:188-214 | the node for the class at filtered index k has id k+1 as a numeral, node type "classNode", the injected position, the class's name attribute, and one formatted line per attribute and per method, in order |
| XmiImport.DecodeNodes | src/pages/Board.jsx:183-215 | one node per user class, in document order, and no node is named "EARootClass" |
| XmiImport.NodeCount | src/pages/Board.jsx:183-187 | the number of nodes is the number of class elements less the number of model roots |
| XmiImport.DecodedIds | src/pages/Board.jsx:203 | decoded ids are pairwise distinct, and node k's id reads back as k+1 |
| XmiImport.DecodedIdsIgnoreSource | src/pages/Board.jsx:203 | two documents with the same number of user classes yield the same ids, whatever ids the documents carry |
| XmiImport.DecodeEdge | src/pages/Board.jsx:219-253 | an association end yields an edge exactly when it has a source and a target whose first ref text is non-empty; the edge then carries those ids, the id "xy-edge__"+source+"right-"+target+"left", the handles "right" and "left", the edge type "start-end", and labels and type defaulting to "0..*", "1" and "Association" |
| XmiImport.DecodeEdgesFrom | src/pages/Board.jsx:219-254 | every kept edge comes from one of the association ends, and there are no more edges than ends |
| XmiImport.EdgeCount | src/pages/Board.jsx:219-254 | the number of edges equals the number of association ends that name both endpoints |
| XmiImport.DecodeEdgesAppend | src/pages/Board.jsx:254 | decoding a split list of ends decodes each part independently, keeping order |
| XmiImport.SkipNotAbort | src/pages/Board.jsx:223-234 | an end lacking an endpoint is dropped without affecting the edges decoded from the other ends |
| XmiImport.ProcessXml | src/pages/Board.jsx:258-267 | no nodes and no edges: nothing found; edges but no node: failure reading the first node; otherwise a board with the decoded nodes and edges titled "Tablero de " + the first class name |
| XmiImport.BoardNeedsAClass | src/pages/Board.jsx:258-260 | a board is created exactly when at least one user class exists |
| XmiTemplates.TargetAggregation | src/pages/BoardPage.jsx:268 | the target aggregation kind is "none" exactly for "Association", "shared" exactly for "Aggregation", and "composite" exactly for every other type |
| XmiTemplates.EndFields | src/pages/BoardPage.jsx:261-268 | an association end writes its multiplicity, its aggregation kind and the export id of the class it names |
| XmiTemplates.AssociationEndsFields | src/pages/BoardPage.jsx:261-268 | the source end carries the start label, aggregation "none  " (two trailing blanks) and "EAID_MYCLASS_00"+source; the target end carries the end label, the type's aggregation kind and "EAID_MYCLASS_00"+target |
| XmiTemplates.AssociationHoldsEnds | src/pages/BoardPage.jsx:261-274 | an association element contains its source end immediately followed by its target end |
| XmiTemplates.AssociationHoldsLocalId | src/pages/BoardPage.jsx:249 | association i carries the local id edge.id+"-"+i |
| XmiTemplates.ClassRefInjective | src/pages/BoardPage.jsx:326 | different node ids give different class export ids |
| XmiTemplates.ClassDeclaresId | src/pages/BoardPage.jsx:326 | a class element declares xmi.id "EAID_MYCLASS_00"+id |
| XmiTemplates.AttributeInClass | src/pages/BoardPage.jsx:350-352 | attribute line k becomes the k-th attribute element, placed right after the class head and the elements for lines 0 to k-1 |
| XmiTemplates.AttributeCarriesIds | src/pages/BoardPage.jsx:216-227 | the attribute element carries the classifier idref "eaxmiid"+index+id and the guid ending in id+index |
| XmiTemplates.AttributeIdrefCollision | src/pages/BoardPage.jsx:216 | attribute 1 of node "12" and attribute 11 of node "2" get the same classifier idref |
| XmiTemplates.AttributeGuidCollision | src/pages/BoardPage.jsx:227 | attribute 12 of node "1" and attribute 2 of node "11" get the same ea_guid |
| XmiTemplates.GeometryText | src/pages/BoardPage.jsx:359-363 | the box is Left=x+30;Top=y+90;Right=x+50;Bottom=y+60; |
| XmiTemplates.GeometryFields | src/pages/BoardPage.jsx:357-365 | a diagram element writes the node's box, the subject "EAID_MYCLASS_00"+id and seqno i+1 |
| XmiExport.ClassBlocksAt | src/pages/BoardPage.jsx:323-355 | the k-th class block is the class element of node k: one per node, in order, none merged or dropped |
| XmiExport.AssociationBlocksAt | src/pages/BoardPage.jsx:236-278 | the j-th association block is edge j's association element with index j |
| XmiExport.GeometryBlocksAt | src/pages/BoardPage.jsx:357-366 | the k-th diagram element is node k's, numbered from index k |
| XmiExport.Association | src/pages/BoardPage.jsx:235-279 | the accumulator loop over the edges returns exactly the concatenation of the association elements in edge order |
| XmiExport.AppendClass | src/pages/BoardPage.jsx:324-355 | appending one node's class head, attribute elements (inner loop) and close extends the class text by exactly that node's class element |
| XmiExport.BuildXml | src/pages/BoardPage.jsx:281-396 | the node loop with two accumulators, the associations and the fixed blocks produce exactly the document header + classes + associations + body1 + body2 wrapping the diagram elements |
| XmiExport.SaveXmlFile | src/pages/BoardPage.jsx:281-414 | the text written is that document for the Enterprise Architect boilerplate |
| XmiExport.ClassPlacement | src/pages/BoardPage.jsx:323-368 | node k's class element appears in the document right after the header and the class elements of nodes 0 to k-1, and ends before the associations start |
| XmiExport.AssociationPlacement | src/pages/BoardPage.jsx:368 | edge j's association element appears right after the class section and associations 0 to j-1, and ends before the diagram elements start |
| XmiExport.SectionOrder | src/pages/BoardPage.jsx:414 | every class element ends before every association element starts, and every association ends before the diagram elements |
| XmiExport.GeometryPlacement | src/pages/BoardPage.jsx:388-396 | node k's diagram element appears inside body2, after the diagram elements of nodes 0 to k-1 |
| XmiExport.AttributePlacement | src/pages/BoardPage.jsx:350-352 | every attribute element of node k, with its classifier idref, appears in the document |
| XmiExport.ClassDeclared | src/pages/BoardPage.jsx:326 | the document declares the export id of every node |
| XmiExport.EndsNamed | src/pages/BoardPage.jsx:261-268 | the association element for edge j names the export ids of its source and of its target |
| XmiExport.SubjectNamed | src/pages/BoardPage.jsx:363-364 | the document's diagram element for node k has subject "EAID_MYCLASS_00"+id |
| XmiExport.EndpointNamesClass | src/pages/BoardPage.jsx:261-268 | for edge j with endpoint node k, one string is written three times: as the type of an end inside edge j's association element (placed at its offset in the association section), as the xmi.id in node k's class element, and as the subject of node k's diagram element; all three occur in the document |
| XmiExport.ExportIdsDistinct | src/pages/BoardPage.jsx:326 | distinct node ids give distinct class export ids in the document |
| Editor.ConnectionEdge | src/pages/BoardPage.jsx:96-104 | the new edge keeps the connection's endpoints and handles, gets edge type "start-end", and uses each label and the type when truthy, else "0..*", "1" and "Association" |
| Editor.OnConnect | src/pages/BoardPage.jsx:86-113 | a missing or empty source or target leaves the edges unchanged; otherwise exactly one edge is appended after the unchanged old ones |
| Editor.ConnectedEdgeExports | src/pages/BoardPage.jsx:96-104 | a connected edge never has an empty label or type, and with no type given it exports aggregation "none" at the target |
| Editor.ImportedEdgesConnectable | src/pages/Board.jsx:236-253 | every imported edge passes the connection guard, and reconnecting it with its own values gives back the same edge |
| Editor.NewNode | src/pages/BoardPage.jsx:118-126 | the n-th new class has id n as a digit string that reads back as n, node type "classNode", the given position, name "Clase "+id, and one default attribute and one default method line |
| Editor.NodeCounter.constructor | src/pages/BoardPage.jsx:23 | the counter starts at 0 |
| Editor.NodeCounter.AddNode | src/pages/BoardPage.jsx:116-127 | the counter is incremented first, and the appended class is built from the new value |
| Editor.AddNodeFresh | src/pages/BoardPage.jsx:116-119 | while every stored id is one the counter already issued, the next class's id is fresh: ids stay distinct and numbered |
| Editor.ImportedNumbered | src/pages/Board.jsx:203 | an imported board's ids are the numerals 1 to n, so a counter at n next issues a fresh id |
| Editor.NewNodeLinesAsImported | src/pages/BoardPage.jsx:124-125 | the default attribute and method lines equal what the importer formats for elements named "nuevoAtributo" and "nuevoMetodo" that give no type |
| Editor.MoveNode | src/pages/BoardPage.jsx:147-149 | the moved list has the same length; the nodes with the dropped id take the new position; every other field and every other node is unchanged |
| Editor.UpdateNodeData | src/pages/BoardPage.jsx:191-193 | only the nodes with the selected id take the edited data; length, ids, types and positions are unchanged |
| Editor.UpdateEdgeData | src/pages/BoardPage.jsx:200-204 | only the edges with the selected id take the edited data; every other field and every other edge is unchanged |
| Editor.MoveKeepsClasses | src/pages/BoardPage.jsx:147-149 | moving a class changes neither the exported class section nor any id |
| Editor.EditKeepsElements | src/pages/BoardPage.jsx:191-193 | editing a class changes neither the exported diagram elements nor any id |
| Editor.EditsIdempotent | src/pages/BoardPage.jsx:147-204 | repeating a move or a save with the same values changes nothing further |
| Editor.RemovedIds | src/pages/BoardPage.jsx:48-56 | the collected ids are exactly those of the "remove" entries, and the list is empty exactly when the batch has no removal |
| Editor.KeepNodes | src/pages/BoardPage.jsx:62-64 | a node is kept exactly when it was stored and its id was not removed, and the list never grows |
| Editor.KeepNodesAppend | src/pages/BoardPage.jsx:62-64 | the filter works piecewise and keeps order |
| Editor.KeepNodesIdempotent | src/pages/BoardPage.jsx:62-64 | deleting the same ids twice equals deleting them once |
| Editor.KeepNodesDistinct | src/pages/BoardPage.jsx:62-64 | deletion keeps distinct ids distinct |
| Editor.GuardOnlySavesWork | src/pages/BoardPage.jsx:53-64 | skipping the write when nothing was removed gives the same stored list as filtering with no ids |

## Left out

- Firestore reads and writes, React state, the file save picker, file reading, alerts, invite links and QR codes. These are I/O and UI. The importer's outcome is described in `XmiImport.ImportResult` instead of being acted on.
- `DOMParser` is not modelled. The importer starts from a parsed tree, and there is no malformed-input branch, because the parser returns a `parsererror` document rather than failing.
- Console output is not modelled: the warning for each skipped association end (Board.jsx:224, 232) and the `console.log` and `console.error` calls in `onConnect`.
- In `addNode`, the `boardSnapshot.exists()` guard around the stored-node write and the `reactFlowInstance.addNodes` call (BoardPage.jsx:128-140) are not modelled. `Editor.NodeCounter.AddNode` returns the appended list that is written.
- Random positions (`Math.random`) are an injected `place` function (importer) or a parameter (add class) with integer coordinates. The geometry's `parseInt` over fractional coordinates is therefore exact addition here.
- XmiBoilerplate.EnterpriseArchitect: the fixed header, tagged-value lists and footers are shortened, with indentation and whitespace dropped. The document is not byte-for-byte what the code writes. Every statement about the document holds for any `Boilerplate`, so this changes no proof.
- `applyNodeChanges`, `applyEdgeChanges` and `addEdge` belong to the canvas library and are not modelled.
  - `Editor.OnConnect` treats `addEdge` as an append, with the new edge's id as a parameter.
  - addEdge's refusal of duplicate connections is not modelled.
  - The local canvas update of a change batch and edge change batches (`onEdgesChange`) are not modelled. Only the write-back of stored nodes after a removal is.
- Editor.NodeCounter.AddNode: the snapshot listener resets the counter to the number of stored classes (src/pages/BoardPage.jsx:430), which is asynchronous UI state and is not modelled. After a deletion, that reset can hand out an id that is still in use. For example, with classes "1" and "2" stored, deleting "1" sets the counter to 1, and the next class added gets id "2" again. `Editor.AddNodeFresh` states the condition under which ids stay fresh.
- The renderer-only fields are not modelled. These are `dragging`, `selected` and `measured` on nodes, `selected` on edges, and any extra properties spread from the connection or from the edit form.
- Editor.UpdateEdgeData: the edited data is taken as the three fields (labels and type). Other properties the edit form might carry are not modelled.
- The classifier idref `eaxmiid`+index+id and the `ea_guid` ending in id+index are deliberately not claimed unique. `XmiTemplates.AttributeIdrefCollision` and `XmiTemplates.AttributeGuidCollision` each show two attributes that share one.

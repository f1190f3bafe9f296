/** The fixed text of the exported XMI document: everything the exporter
    writes that does not come from the graph. Enterprise Architect needs these
    blocks to accept the file; they are kept in one record so that the
    templates can be stated, and proved, for any such text. */
module XmiBoilerplate {

  datatype Boilerplate = Boilerplate(
    /** XML declaration, `XMI` header (exporter name and version), the model,
        the `EARootClass` root and the opening of the "Class Model" package. */
    header: string,
    /** Between an attribute's name and its classifier idref. */
    attributeHead: string,
    /** Between the classifier idref and the `ea_guid` tagged value. */
    attributeTags: string,
    /** After the `ea_guid`: the remaining tagged values and `</UML:Attribute>`. */
    attributeClose: string,
    /** Between a class's `xmi.id` and its `ea_localid`. */
    classHeadTags: string,
    /** Between the `ea_localid` and the attribute elements. */
    classTailTags: string,
    /** After the attribute elements: `</UML:Classifier.feature></UML:Class>`. */
    classClose: string,
    /** Between an association's id and its `ea_type`. */
    associationHead: string,
    /** Between the `ea_type` and the `ea_localid`. */
    associationStyleTags: string,
    /** Between the `ea_localid` and the `ea_sourceID`. */
    associationNameTags: string,
    /** Between the `ea_targetID` and the source end. */
    associationTailTags: string,
    /** After the target end. */
    associationClose: string,
    /** The fixed attributes of an association end after its aggregation kind. */
    endAttributes: string,
    /** Tagged values of the source end and of the target end. */
    sourceEndTags: string,
    targetEndTags: string,
    /** The fixed start of every attribute's `ea_guid`. */
    guidPrefix: string,
    /** After a diagram element's sequence number. */
    geometryClose: string,
    /** Closes the package and the model and opens the class diagram with its
        tagged values. */
    body1: string,
    /** Opens the list of diagram elements. */
    body2Open: string,
    /** Closes the diagram elements, the diagram and the document. */
    body2Close: string)

  const PackageId := "EAPK_8510AB1B_CCEC_4186_AAF7_EB9893025F80"

  /** The text Enterprise Architect 2.5 writes, with its tagged-value lists
      shortened and its indentation dropped. */
  const EnterpriseArchitect := Boilerplate(
    header :=
      "<?xml version=\"1.0\" encoding=\"windows-1252\"?>\n"
      + "<XMI xmi.version=\"1.1\" xmlns:UML=\"omg.org/UML1.3\" timestamp=\"2024-10-04 05:45:18\">"
      + "<XMI.header><XMI.documentation><XMI.exporter>Enterprise Architect</XMI.exporter>"
      + "<XMI.exporterVersion>2.5</XMI.exporterVersion></XMI.documentation></XMI.header>"
      + "<XMI.content><UML:Model name=\"EA Model\" xmi.id=\"MX_EAID_8510AB1B_CCEC_4186_AAF7_EB9893025F80\">"
      + "<UML:Namespace.ownedElement>"
      + "<UML:Class name=\"EARootClass\" xmi.id=\"EAID_11111111_5487_4080_A7F4_41526CB0AA00\""
      + " isRoot=\"true\" isLeaf=\"false\" isAbstract=\"false\"/>"
      + "<UML:Package name=\"Class Model\" xmi.id=\"" + PackageId + "\" isRoot=\"false\""
      + " isLeaf=\"false\" isAbstract=\"false\" visibility=\"public\"><UML:ModelElement.taggedValue>"
      + "<UML:TaggedValue tag=\"parent\" value=\"EAPK_AAD25E0C_27E3_44c2_B427_87D636B2D17C\"/>"
      + "<UML:TaggedValue tag=\"ea_package_id\" value=\"86\"/>"
      + "<UML:TaggedValue tag=\"author\" value=\"HttpRen\"/>"
      + "</UML:ModelElement.taggedValue><UML:Namespace.ownedElement>",
    attributeHead :=
      "\" changeable=\"none\" visibility=\"private\" ownerScope=\"instance\" targetScope=\"instance\">"
      + "<UML:Attribute.initialValue><UML:Expression/></UML:Attribute.initialValue>"
      + "<UML:StructuralFeature.type><UML:Classifier ",
    attributeTags :=
      "/></UML:StructuralFeature.type><UML:ModelElement.taggedValue>"
      + "<UML:TaggedValue tag=\"type\" value=\"int\"/>"
      + "<UML:TaggedValue tag=\"containment\" value=\"Not Specified\"/>"
      + "<UML:TaggedValue tag=\"lowerBound\" value=\"1\"/>"
      + "<UML:TaggedValue tag=\"upperBound\" value=\"1\"/>",
    attributeClose :=
      "<UML:TaggedValue tag=\"ea_localid\" value=\"27\"/>"
      + "<UML:TaggedValue tag=\"styleex\" value=\"volatile=0;\"/>"
      + "</UML:ModelElement.taggedValue></UML:Attribute>\n",
    classHeadTags :=
      " visibility=\"public\" namespace=\"" + PackageId + "\" isRoot=\"false\" isLeaf=\"false\""
      + " isAbstract=\"false\" isActive=\"false\"><UML:ModelElement.taggedValue>"
      + "<UML:TaggedValue tag=\"ea_stype\" value=\"Class\"/>"
      + "<UML:TaggedValue tag=\"package\" value=\"" + PackageId + "\"/>"
      + "<UML:TaggedValue tag=\"author\" value=\"HttpRen\"/>",
    classTailTags :=
      "<UML:TaggedValue tag=\"ea_eleType\" value=\"element\"/>"
      + "</UML:ModelElement.taggedValue><UML:Classifier.feature>",
    classClose := "</UML:Classifier.feature> </UML:Class>",
    associationHead :=
      "\" visibility=\"public\" isRoot=\"false\" isLeaf=\"false\" isAbstract=\"false\">"
      + "<UML:ModelElement.taggedValue><UML:TaggedValue tag=\"style\" value=\"3\"/>",
    associationStyleTags :=
      "<UML:TaggedValue tag=\"direction\" value=\"Unspecified\"/>"
      + "<UML:TaggedValue tag=\"seqno\" value=\"0\"/>",
    associationNameTags :=
      "<UML:TaggedValue tag=\"ea_sourceName\" value=\"Persona\"/>"
      + "<UML:TaggedValue tag=\"ea_targetName\" value=\"Bicicleta\"/>",
    associationTailTags :=
      "<UML:TaggedValue tag=\"virtualInheritance\" value=\"0\"/>"
      + "</UML:ModelElement.taggedValue> <UML:Association.connection>",
    associationClose := "</UML:Association.connection></UML:Association>",
    endAttributes :=
      " isOrdered=\"false\" targetScope=\"instance\" changeable=\"none\" isNavigable=\"true\" ",
    sourceEndTags :=
      "<UML:ModelElement.taggedValue><UML:TaggedValue tag=\"containment\" value=\"Unspecified\"/>"
      + "<UML:TaggedValue tag=\"ea_end\" value=\"source\"/></UML:ModelElement.taggedValue>",
    targetEndTags :=
      "<UML:ModelElement.taggedValue><UML:TaggedValue tag=\"containment\" value=\"Unspecified\"/>"
      + "<UML:TaggedValue tag=\"ea_end\" value=\"target\"/></UML:ModelElement.taggedValue>",
    guidPrefix := "{C2602A54-4A22-45f7-ABAA-4FBE30A2EF6",
    geometryClose := " style=\"DUID=12345;\"/>\n",
    body1 :=
      "</UML:Namespace.ownedElement></UML:Package></UML:Namespace.ownedElement></UML:Model>"
      + "<UML:Diagram name=\"Class Model\" xmi.id=\"EAID_0302CD9D_98A9_4585_BA1E_76226685392F\""
      + " diagramType=\"ClassDiagram\" owner=\"" + PackageId + "\" toolName=\"Enterprise Architect 2.5\">"
      + "<UML:ModelElement.taggedValue><UML:TaggedValue tag=\"version\" value=\"1.0\"/>"
      + "<UML:TaggedValue tag=\"type\" value=\"Logical\"/></UML:ModelElement.taggedValue>",
    body2Open := "\n<UML:Diagram.element>\n",
    body2Close :=
      "\n</UML:Diagram.element></UML:Diagram></XMI.content><XMI.difference/>"
      + "<XMI.extensions xmi.extender=\"Enterprise Architect 2.5\"/></XMI>")
}

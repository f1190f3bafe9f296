/** An already parsed XML document as a tree, and the DOM lookups the importer
    uses on it. */
module Xml {
  import opened JsValues

  /** An element: its qualified tag name (such as "UML:Class"), its attributes
      and its children in document order. */
  datatype Element = Element(tag: string, attrs: map<string, string>, children: seq<Content>)

  datatype Content = TextNode(text: string) | Child(elem: Element)

  /** The top-level content of a parsed document. */
  type Document = seq<Content>

  /** The elements tagged `tag` among `cs` and everything below it, in
      document (preorder) order. */
  function InForest(cs: seq<Content>, tag: string): (r: seq<Element>)
    ensures forall e :: e in r ==> e.tag == tag
    decreases cs
  {
    if cs == [] then [] else InContent(cs[0], tag) + InForest(cs[1..], tag)
  }

  function InContent(c: Content, tag: string): (r: seq<Element>)
    ensures forall e :: e in r ==> e.tag == tag
    decreases c
  {
    match c
    case TextNode(_) => []
    case Child(e) => (if e.tag == tag then [e] else []) + InForest(e.children, tag)
  }

  /** `element.getElementsByTagName(tag)`: descendants only, preorder. */
  function ElementsByTag(e: Element, tag: string): seq<Element>
  {
    InForest(e.children, tag)
  }

  /** `document.getElementsByTagName(tag)`: every element of the document. */
  function DocumentElementsByTag(doc: Document, tag: string): seq<Element>
  {
    InForest(doc, tag)
  }

  /** `element.getAttribute(name)`: `null` when the attribute is absent. */
  function GetAttribute(e: Element, name: string): (r: Opt<string>)
    ensures r.Some? <==> name in e.attrs
    ensures r.Some? ==> r.value == e.attrs[name]
  {
    if name in e.attrs then Some(e.attrs[name]) else None
  }

  /** `list[0]`: `undefined` for an empty list. */
  function First(es: seq<Element>): (r: Opt<Element>)
    ensures r.Some? <==> |es| > 0
    ensures r.Some? ==> r.value == es[0]
  {
    if es == [] then None else Some(es[0])
  }

  /** `textContent`: the text of every text node below, in document order. */
  function TextContent(e: Element): string
  {
    ForestText(e.children)
  }

  function ForestText(cs: seq<Content>): string
    decreases cs
  {
    if cs == [] then "" else ContentText(cs[0]) + ForestText(cs[1..])
  }

  function ContentText(c: Content): string
    decreases c
  {
    match c
    case TextNode(t) => t
    case Child(e) => ForestText(e.children)
  }

  /** `e.getElementsByTagName(tag)[0]?.textContent`. */
  function FirstTextByTag(e: Element, tag: string): (r: Opt<string>)
    ensures r.Some? <==> |ElementsByTag(e, tag)| > 0
    ensures r.Some? ==> r.value == TextContent(ElementsByTag(e, tag)[0])
  {
    match First(ElementsByTag(e, tag))
    case None => None
    case Some(t) => Some(TextContent(t))
  }
}

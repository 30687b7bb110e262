/**
 * The part of System.Xml the serializer relies on: an XML node tree, its
 * text rendering, the writer that builds the outgoing document and the
 * root element of a loaded `XmlDocument`.
 */
module Xml {

  import opened Wrappers

  datatype Attribute = Attribute(name: string, value: string)

  /**
   * An XML node. Every kind counts among its parent's child nodes, as it
   * does in `XmlNode.ChildNodes`. `Other` is any further node kind (a
   * comment, a CDATA section, a processing instruction) by its `Name`
   * ("#comment", "#cdata-section", the target) and its markup.
   */
  datatype Node =
    | Element(name: string, attrs: seq<Attribute>, children: seq<Node>)
    | Text(value: string)
    | Other(name: string, markup: string)

  type ElementNode = n: Node | n.Element? witness Element("", [], [])

  /** `XmlNode.Name`: the tag of an element, "#text" for a text node, the kind's name otherwise. */
  function NodeName(n: Node): (r: string)
    ensures n.Element? ==> r == n.name
    ensures n.Text? ==> r == "#text"
    ensures !n.Text? ==> r == n.name
  {
    match n
    case Element(name, _, _) => name
    case Text(_) => "#text"
    case Other(name, _) => name
  }

  /** The root element after `Attributes.RemoveAll()`. */
  function StripAttributes(root: ElementNode): (r: ElementNode)
    ensures r.name == root.name && r.children == root.children && r.attrs == []
  {
    Element(root.name, [], root.children)
  }

  function RenderAttributes(attrs: seq<Attribute>): string
    decreases attrs
  {
    if attrs == [] then ""
    else " " + attrs[0].name + "=\"" + attrs[0].value + "\"" + RenderAttributes(attrs[1..])
  }

  /** The markup of a node; an element without children is written `<name />`. */
  function Render(n: Node): string
    decreases n, 1
  {
    match n
    case Text(v) => v
    case Other(_, markup) => markup
    case Element(name, attrs, children) =>
      if children == [] then "<" + name + RenderAttributes(attrs) + " />"
      else "<" + name + RenderAttributes(attrs) + ">" + RenderNodes(children) + "</" + name + ">"
  }

  function RenderNodes(ns: seq<Node>): string
    decreases ns, 0
  {
    if ns == [] then "" else Render(ns[0]) + RenderNodes(ns[1..])
  }

  /** The XML declaration `XmlTextWriter.WriteStartDocument` writes. */
  function Declaration(encoding: Option<string>): string {
    match encoding
    case None => "<?xml version=\"1.0\"?>"
    case Some(e) => "<?xml version=\"1.0\" encoding=\"" + e + "\"?>"
  }

  /** The whole text of a document with the given root element. */
  function DocumentText(encoding: Option<string>, root: ElementNode): string {
    Declaration(encoding) + Render(root)
  }

  /** Where an `XmlTextWriter` is in writing a single-root document. */
  datatype WriterState = Initial | Prolog | RootOpen | RootContent | Closed

  /**
   * An `XmlTextWriter` over a memory stream. It keeps the document it is
   * writing as the root element's name, the attributes written so far and
   * the content written after them.
   */
  class XmlTextWriter {
    const encoding: Option<string>
    var state: WriterState
    var rootName: string
    var attributes: seq<Attribute>
    var content: seq<Node>

    constructor (encoding: Option<string>)
      ensures this.encoding == encoding
      ensures state == Initial && rootName == "" && attributes == [] && content == []
    {
      this.encoding := encoding;
      state := Initial;
      rootName := "";
      attributes := [];
      content := [];
    }

    /** The root element as written so far. */
    function Document(): (d: ElementNode)
      reads this
      ensures d.name == rootName && d.attrs == attributes && d.children == content
    {
      Element(rootName, attributes, content)
    }

    /** The text in the stream once the document is closed. */
    function Output(): string
      reads this
      requires state == Closed
    {
      DocumentText(encoding, Document())
    }

    method WriteStartDocument()
      requires state == Initial
      modifies this
      ensures state == Prolog
      ensures rootName == old(rootName) && attributes == old(attributes) && content == old(content)
    {
      state := Prolog;
    }

    method WriteStartElement(name: string)
      requires state == Prolog
      modifies this
      ensures state == RootOpen && rootName == name && attributes == [] && content == []
    {
      state := RootOpen;
      rootName := name;
      attributes := [];
      content := [];
    }

    method WriteAttributeString(name: string, value: string)
      requires state == RootOpen
      modifies this
      ensures state == RootOpen && rootName == old(rootName) && content == old(content)
      ensures attributes == old(attributes) + [Attribute(name, value)]
    {
      attributes := attributes + [Attribute(name, value)];
    }

    /** Writes markup verbatim; the model takes the nodes that markup denotes. */
    method WriteRaw(nodes: seq<Node>)
      requires state == RootOpen || state == RootContent
      modifies this
      ensures state == RootContent && rootName == old(rootName) && attributes == old(attributes)
      ensures content == old(content) + nodes
    {
      state := RootContent;
      content := content + nodes;
    }

    /** Closes the root element and the document. */
    method WriteEndDocument()
      requires state == RootOpen || state == RootContent
      modifies this
      ensures state == Closed
      ensures rootName == old(rootName) && attributes == old(attributes) && content == old(content)
    {
      state := Closed;
    }
  }

  /** The `DocumentElement` of a loaded `XmlDocument`. */
  class XmlElement {
    var name: string
    var attributes: seq<Attribute>
    var childNodes: seq<Node>

    constructor (root: ElementNode)
      ensures name == root.name && attributes == root.attrs && childNodes == root.children
    {
      name := root.name;
      attributes := root.attrs;
      childNodes := root.children;
    }

    function Snapshot(): (n: ElementNode)
      reads this
      ensures n.name == name && n.attrs == attributes && n.children == childNodes
    {
      Element(name, attributes, childNodes)
    }

    /** `FirstChild`: the first child node, `None` when there is none. */
    function FirstChild(): (c: Option<Node>)
      reads this
      ensures c.Some? <==> |childNodes| > 0
      ensures c.Some? ==> c.value == childNodes[0]
    {
      if |childNodes| > 0 then Some(childNodes[0]) else None
    }

    /** `Attributes.RemoveAll()`. */
    method RemoveAllAttributes()
      modifies this
      ensures Snapshot() == StripAttributes(old(Snapshot()))
    {
      attributes := [];
    }
  }
}

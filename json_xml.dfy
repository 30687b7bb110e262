/**
 * A restricted stand-in for the JSON<->XML node conversion the serializer
 * delegates to Newtonsoft.Json: a message body is a flat JSON object whose
 * properties keep their order and carry scalar values already rendered as
 * text (enums by name). Each property becomes one child element holding
 * its value as text.
 */
module JsonXml {

  import opened Wrappers
  import opened Xml

  datatype Property = Property(key: string, value: string)

  datatype Body = Body(properties: seq<Property>)

  /** One property as an element; an empty value gives an empty element. */
  function PropertyElement(p: Property): (n: Node)
    ensures n.Element? && n.name == p.key && n.attrs == []
  {
    Element(p.key, [], if p.value == "" then [] else [Text(p.value)])
  }

  function PropertyElements(ps: seq<Property>): (ns: seq<Node>)
    ensures |ns| == |ps|
    ensures forall k :: 0 <= k < |ps| ==> ns[k] == PropertyElement(ps[k])
    decreases ps
  {
    if ps == [] then [] else [PropertyElement(ps[0])] + PropertyElements(ps[1..])
  }

  /**
   * `DeserializeXmlNode(json, rootName)`: the body as an element named
   * `rootName` with one child per property, in property order.
   */
  function ToXmlElement(rootName: string, b: Body): (n: ElementNode)
    ensures n.name == rootName && n.attrs == []
    ensures |n.children| == |b.properties|
    ensures forall k :: 0 <= k < |b.properties| ==>
              NodeName(n.children[k]) == b.properties[k].key
  {
    Element(rootName, [], PropertyElements(b.properties))
  }

  /** The property an element child stands for, if it is one. */
  function PropertyOf(n: Node): (r: Option<Property>)
    ensures r.Some? ==> n.Element? && r.value.key == n.name
  {
    match n
    case Element(key, _, children) =>
      if children == [] then Some(Property(key, ""))
      else if |children| == 1 && children[0].Text? then Some(Property(key, children[0].value))
      else None
    case _ => None
  }

  function PropertiesOf(ns: seq<Node>): (r: Option<seq<Property>>)
    ensures r.Some? ==> |r.value| == |ns|
    decreases ns
  {
    if ns == [] then Some([])
    else match (PropertyOf(ns[0]), PropertiesOf(ns[1..]))
      case (Some(p), Some(ps)) => Some([p] + ps)
      case _ => None
  }

  /**
   * `SerializeXmlNode` followed by `ToObject`: the body an element stands
   * for, `None` (a null object) when it is not a flat object.
   */
  function ToBody(n: Node): (r: Option<Body>)
    ensures r.Some? ==> n.Element? && |r.value.properties| == |n.children|
  {
    match n
    case Element(_, _, children) =>
      (match PropertiesOf(children)
       case Some(ps) => Some(Body(ps))
       case None => None)
    case _ => None
  }

  lemma {:induction false} PropertiesOfElements(ps: seq<Property>)
    ensures PropertiesOf(PropertyElements(ps)) == Some(ps)
    decreases ps
  {
    if ps != [] {
      var ns := PropertyElements(ps);
      assert ns[0] == PropertyElement(ps[0]);
      assert ns[1..] == PropertyElements(ps[1..]);
      assert PropertyOf(ns[0]) == Some(ps[0]);
      PropertiesOfElements(ps[1..]);
      assert [ps[0]] + ps[1..] == ps;
    }
  }

  /** Converting a body to an element and back gives the body again, whatever the element's name. */
  lemma ToBodyOfToXmlElement(rootName: string, b: Body)
    ensures ToBody(ToXmlElement(rootName, b)) == Some(b)
  {
    PropertiesOfElements(b.properties);
  }
}

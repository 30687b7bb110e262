/**
 * The XML serializer: wrapping a message body in an XML envelope on the way
 * out, and validating and unwrapping an envelope on the way in.
 */
module XmlSerializer {

  import opened Wrappers
  import opened Xml
  import opened Types
  import opened JsonXml
  import opened Exceptions
  import opened Options
  import opened Decimal
  import Headers

  type HeaderMap = map<string, string>

  /** A message as the host hands it over: headers and a typed body. */
  datatype Message = Message(headers: HeaderMap, body: Body)

  /** A message as the transport carries it; the body is the document's text. */
  datatype TransportMessage = TransportMessage(headers: HeaderMap, body: string)

  /** What `new Uri(s)` gives: the URI rendered back with `ToString()`, or the reason it is malformed. */
  datatype ParsedUri = Parsed(text: string) | Malformed(reason: string)

  /** The `System.Uri` constructor. */
  type UriParser = string -> ParsedUri

  /** `Type.GetType(name)`; `None` where it returns null. */
  type TypeResolver = string -> Option<TypeDesc>

  const XsiAttributeName: string := "xmlns:xsi"
  const XsiNamespace: string := "http://www.w3.org/2001/XMLSchema-instance"
  const XsdAttributeName: string := "xmlns:xsd"
  const XsdNamespace: string := "http://www.w3.org/2001/XMLSchema"
  const DefaultNamespaceAttributeName: string := "xmlns"

  /** `typeof(XmlSerializer).FullName`. */
  const SerializerFullName: string := "ReBus.Serializer.XML.XmlSerializer"

  // ---------------------------------------------------------------------
  // The exceptions the serializer raises itself

  /** `new InvalidOperationException()`, thrown when the body type is unknown. */
  function UnresolvedMessageType(): (e: Exception)
    ensures e.kind == InvalidOperation && e.data == map[]
    ensures !IsNotSupported(e.kind)
  {
    Exception(InvalidOperation, "Operation is not valid due to the current state of the object.", map[])
  }

  /** The exception for an incoming message without the type header; it names that header. */
  function MissingTypeHeader(): (e: Exception)
    ensures e.kind == InvalidOperation && e.data == map[]
  {
    Exception(InvalidOperation,
      SerializerFullName + " deserialization requires `" + Headers.MessageType + "` in message headers", map[])
  }

  /** The element found, and the type expected, where they differ; the message names both. */
  function TypeMismatch(observed: string, expected: string): (e: Exception)
    ensures e.kind == InvalidOperation && e.data == map[]
  {
    Exception(InvalidOperation,
      "Attempt to deserialize `" + observed + "` object to the type `" + expected + "` which is not equal.", map[])
  }

  /** A plain `NotSupportedException`: a `catch` for the array error does not take it. */
  function UnrecognizedBody(): (e: Exception)
    ensures e.kind == NotSupported && IsNotSupported(e.kind) && e.kind != ArrayOfObjectsInBody
    ensures e.data == map[]
  {
    Exception(NotSupported, "Message body was unrecognized and because of that we can't deserialize that", map[])
  }

  /** A `NullReferenceException`: a member of a null type or node is dereferenced. */
  function NullDereference(): (e: Exception)
    ensures e.kind == NullReference && !IsNotSupported(e.kind) && e.data == map[]
  {
    Exception(NullReference, "Object reference not set to an instance of an object.", map[])
  }

  /** The `UriFormatException` the `Uri` constructor throws, with the reason as its message. */
  function InvalidUri(reason: string): (e: Exception)
    ensures e.kind == UriFormat && e.message == reason && e.data == map[]
  {
    Exception(UriFormat, reason, map[])
  }

  // ---------------------------------------------------------------------
  // Namespace resolution

  /**
   * The default namespace of the envelope: empty unless namespaces are
   * enabled; else the `Namespace` header as it is; else the prefix header,
   * or the configured default prefix, as a URI followed by the type's
   * namespace. That last step dereferences the type, so for an unresolved
   * type it is a `NullReferenceException`.
   */
  function DefineNamespaceOfMessage(
    options: XmlSerializingOptions, parseUri: UriParser, headers: HeaderMap, messageType: Option<TypeDesc>
  ): (r: Result<string>)
    ensures !options.includeNamespace ==> r == Success("")
    ensures r.Failure? ==> options.includeNamespace && Headers.Namespace !in headers
    ensures r.Failure? ==> r.error.kind == UriFormat || (r.error.kind == NullReference && messageType.None?)
    ensures r.Success? && options.includeNamespace && Headers.Namespace !in headers ==> messageType.Some?
  {
    if !options.includeNamespace then Success("")
    else if Headers.Namespace in headers then Success(headers[Headers.Namespace])
    else
      var prefix :=
        if Headers.NamespacePrefix in headers then headers[Headers.NamespacePrefix]
        else options.defaultNamespacePrefix;
      match parseUri(prefix)
      case Malformed(reason) => Failure(InvalidUri(reason))
      case Parsed(uri) =>
        match messageType
        case None => Failure(NullDereference())
        case Some(t) => Success(uri + t.namespaceName)
  }

  // ---------------------------------------------------------------------
  // The root element

  /** `xmlns:{prefix}` for the first base type, `xmlns:{prefix}{i}` for the i-th after it. */
  function BaseTypeAttributeName(prefix: string, i: nat): (r: string)
    ensures |r| >= |"xmlns:" + prefix|
    ensures i == 0 <==> |r| == |"xmlns:" + prefix|
  {
    "xmlns:" + prefix + (if i == 0 then "" else NatToString(i))
  }

  /** One attribute per base type other than `object`, valued with its full name. */
  function BaseTypeAttributes(prefix: string, baseTypes: seq<TypeDesc>): seq<Attribute> {
    NumberedAttributes(prefix, WithoutObject(baseTypes))
  }

  /** The i-th type's full name under the i-th base-type attribute name. */
  function NumberedAttributes(prefix: string, types: seq<TypeDesc>): seq<Attribute> {
    seq(|types|, i requires 0 <= i < |types| => Attribute(BaseTypeAttributeName(prefix, i), types[i].fullName))
  }

  /** The three attributes every root element carries, in the order they are written. */
  function FixedRootAttributes(ns: string): seq<Attribute> {
    [ Attribute(XsiAttributeName, XsiNamespace),
      Attribute(XsdAttributeName, XsdNamespace),
      Attribute(DefaultNamespaceAttributeName, ns) ]
  }

  /** The attributes of the root element, in the order they are written. */
  function RootAttributes(options: XmlSerializingOptions, ns: string, messageType: TypeDesc): seq<Attribute> {
    FixedRootAttributes(ns)
    + (if options.includeBaseTypeNamespaces
       then BaseTypeAttributes(options.baseTypeNamespaceAttributeName, messageType.baseTypes)
       else [])
  }

  /** The document `ComposeXmlMessage` writes for a body of the given type. */
  function Envelope(options: XmlSerializingOptions, ns: string, messageType: TypeDesc, body: Body): ElementNode {
    Element(options.rootName, RootAttributes(options, ns, messageType), [ToXmlElement(messageType.name, body)])
  }

  /**
   * The exception an unresolved type raises once the namespace is formed:
   * reading its base types dereferences it when base-type namespaces are
   * on; otherwise converting the body finds no type name.
   */
  function UnresolvedTypeError(options: XmlSerializingOptions): Exception {
    if options.includeBaseTypeNamespaces then NullDereference() else UnresolvedMessageType()
  }

  /**
   * What `Serialize` returns, or the exception it throws: the namespace's
   * failure first, then the unresolved type's, else the envelope's text.
   */
  function Encoded(
    options: XmlSerializingOptions, parseUri: UriParser, message: Message, messageType: Option<TypeDesc>
  ): Result<TransportMessage>
  {
    match DefineNamespaceOfMessage(options, parseUri, message.headers, messageType)
    case Failure(e) => Failure(e)
    case Success(ns) =>
      match messageType
      case None => Failure(UnresolvedTypeError(options))
      case Some(t) =>
        Success(TransportMessage(message.headers, DocumentText(options.encoding, Envelope(options, ns, t, message.body))))
  }

  // ---------------------------------------------------------------------
  // Validation on the way in

  function ChildName(child: Option<Node>): Option<string> {
    match child
    case None => None
    case Some(n) => Some(NodeName(n))
  }

  function TypeName(t: Option<TypeDesc>): Option<string> {
    match t
    case None => None
    case Some(d) => Some(d.name)
  }

  /** A null string interpolated into a message reads as empty. */
  function NameOrEmpty(name: Option<string>): string {
    match name
    case None => ""
    case Some(s) => s
  }

  /**
   * What `Deserialize` returns for a transport message whose body parses to
   * `document`, or the exception it throws.
   */
  function Decoded(resolve: TypeResolver, transport: TransportMessage, document: ElementNode): Result<Message> {
    if Headers.MessageType !in transport.headers then Failure(MissingTypeHeader())
    else
      var root := StripAttributes(document);
      if |root.children| > 1 then Failure(NotSupportedArrayOfObjectsInBody(transport.body))
      else
        var typeFromAssembly := resolve(transport.headers[Headers.MessageType]);
        var child := if |root.children| > 0 then Some(root.children[0]) else None;
        if ChildName(child) != TypeName(typeFromAssembly) then
          Failure(TypeMismatch(NameOrEmpty(ChildName(child)), NameOrEmpty(TypeName(typeFromAssembly))))
        else if child.None? then Failure(NullDereference())
        else
          match ToBody(child.value)
          case None => Failure(UnrecognizedBody())
          case Some(b) => Success(Message(transport.headers, b))
  }

  // ---------------------------------------------------------------------
  // The writer-driven operations

  method IncludeBaseTypesInElement(writer: XmlTextWriter, options: XmlSerializingOptions, messageType: TypeDesc)
    requires writer.state == RootOpen
    modifies writer
    ensures writer.state == RootOpen && writer.rootName == old(writer.rootName) && writer.content == old(writer.content)
    ensures writer.attributes
         == old(writer.attributes) + BaseTypeAttributes(options.baseTypeNamespaceAttributeName, messageType.baseTypes)
  {
    var prefix := options.baseTypeNamespaceAttributeName;
    var baseTypes := WithoutObject(messageType.baseTypes);
    ghost var expected := BaseTypeAttributes(prefix, messageType.baseTypes);
    if |baseTypes| == 0 {
      assert expected == [];
      assert writer.attributes == writer.attributes + expected;
      return;
    }
    writer.WriteAttributeString("xmlns:" + prefix, baseTypes[0].fullName);
    assert ("xmlns:" + prefix) + "" == "xmlns:" + prefix;
    assert expected[0] == Attribute("xmlns:" + prefix, baseTypes[0].fullName);
    assert expected[..1] == [expected[0]];
    for i := 1 to |baseTypes|
      invariant writer.state == RootOpen
      invariant writer.rootName == old(writer.rootName) && writer.content == old(writer.content)
      invariant writer.attributes == old(writer.attributes) + expected[..i]
    {
      writer.WriteAttributeString("xmlns:" + prefix + NatToString(i), baseTypes[i].fullName);
      assert expected[..i + 1] == expected[..i] + [expected[i]];
    }
    assert expected[..|baseTypes|] == expected;
  }

  method WriteRootContainerElement(
    writer: XmlTextWriter, options: XmlSerializingOptions, parseUri: UriParser, message: Message,
    messageType: Option<TypeDesc>
  ) returns (o: Outcome)
    requires writer.state == Prolog
    modifies writer
    ensures var ns := DefineNamespaceOfMessage(options, parseUri, message.headers, messageType);
            ns.Failure? ==> o == Fail(ns.error) && unchanged(writer)
    ensures var ns := DefineNamespaceOfMessage(options, parseUri, message.headers, messageType);
            ns.Success? ==>
              && writer.state == RootOpen && writer.rootName == options.rootName && writer.content == []
              && (messageType.None? && options.includeBaseTypeNamespaces ==>
                    o == Fail(NullDereference()) && writer.attributes == FixedRootAttributes(ns.value))
              && (messageType.None? && !options.includeBaseTypeNamespaces ==>
                    o == Pass && writer.attributes == FixedRootAttributes(ns.value))
              && (messageType.Some? ==>
                    o == Pass && writer.attributes == RootAttributes(options, ns.value, messageType.value))
  {
    var namespaceOfMessage := DefineNamespaceOfMessage(options, parseUri, message.headers, messageType);
    if namespaceOfMessage.Failure? {
      return Fail(namespaceOfMessage.error);
    }
    writer.WriteStartElement(options.rootName);
    writer.WriteAttributeString(XsiAttributeName, XsiNamespace);
    writer.WriteAttributeString(XsdAttributeName, XsdNamespace);
    writer.WriteAttributeString(DefaultNamespaceAttributeName, namespaceOfMessage.value);
    if options.includeBaseTypeNamespaces {
      if messageType.None? {
        return Fail(NullDereference());
      }
      IncludeBaseTypesInElement(writer, options, messageType.value);
    }
    o := Pass;
  }

  method SerializeAndWriteXmlMessage(writer: XmlTextWriter, message: Message, messageType: Option<TypeDesc>)
    returns (o: Outcome)
    requires writer.state == RootOpen || writer.state == RootContent
    modifies writer
    ensures messageType.None? ==> o == Fail(UnresolvedMessageType()) && unchanged(writer)
    ensures messageType.Some? ==>
              && o == Pass && writer.state == RootContent
              && writer.rootName == old(writer.rootName) && writer.attributes == old(writer.attributes)
              && writer.content == old(writer.content) + [ToXmlElement(messageType.value.name, message.body)]
  {
    if messageType.None? {
      return Fail(UnresolvedMessageType());
    }
    var xmlObj := ToXmlElement(messageType.value.name, message.body);
    writer.WriteRaw([xmlObj]);
    o := Pass;
  }

  method ComposeXmlMessage(
    writer: XmlTextWriter, options: XmlSerializingOptions, parseUri: UriParser, message: Message,
    messageType: Option<TypeDesc>
  ) returns (o: Outcome)
    requires writer.state == Initial
    modifies writer
    ensures var e := Encoded(options, parseUri, message, messageType);
            e.Failure? ==> o == Fail(e.error)
    ensures var e := Encoded(options, parseUri, message, messageType);
            e.Success? ==>
              && o == Pass && writer.state == Closed && messageType.Some?
              && writer.Document()
                 == Envelope(options, DefineNamespaceOfMessage(options, parseUri, message.headers, messageType).value,
                             messageType.value, message.body)
  {
    writer.WriteStartDocument();
    o := WriteRootContainerElement(writer, options, parseUri, message, messageType);
    if o.Fail? {
      return;
    }
    o := SerializeAndWriteXmlMessage(writer, message, messageType);
    if o.Fail? {
      return;
    }
    writer.WriteEndDocument();
  }

  /** Writes the envelope for `message`; the headers are passed on untouched. */
  method Serialize(
    options: XmlSerializingOptions, parseUri: UriParser, message: Message, messageType: Option<TypeDesc>
  ) returns (r: Result<TransportMessage>)
    ensures r == Encoded(options, parseUri, message, messageType)
    ensures r.Success? ==> r.value.headers == message.headers
  {
    var xmlWriter := new XmlTextWriter(options.encoding);
    var o := ComposeXmlMessage(xmlWriter, options, parseUri, message, messageType);
    if o.Fail? {
      return Failure(o.error);
    }
    r := Success(TransportMessage(message.headers, xmlWriter.Output()));
  }

  /** Validates the envelope `document` (the parse of `transport.body`) and unwraps its body. */
  method Deserialize(resolve: TypeResolver, transport: TransportMessage, document: ElementNode)
    returns (r: Result<Message>)
    ensures r == Decoded(resolve, transport, document)
    ensures r.Success? ==> r.value.headers == transport.headers
  {
    if Headers.MessageType !in transport.headers {
      return Failure(MissingTypeHeader());
    }
    var rootElement := new XmlElement(document);
    rootElement.RemoveAllAttributes();
    assert rootElement.Snapshot() == StripAttributes(document);
    assert rootElement.childNodes == StripAttributes(document).children;
    if |rootElement.childNodes| > 1 {
      return Failure(NotSupportedArrayOfObjectsInBody(transport.body));
    }
    var typeFromAssembly := resolve(transport.headers[Headers.MessageType]);
    var rootElementChild := rootElement.FirstChild();
    assert rootElementChild == if |document.children| > 0 then Some(document.children[0]) else None;
    if ChildName(rootElementChild) != TypeName(typeFromAssembly) {
      return Failure(TypeMismatch(NameOrEmpty(ChildName(rootElementChild)), NameOrEmpty(TypeName(typeFromAssembly))));
    }
    if rootElementChild.None? {
      return Failure(NullDereference());
    }
    var obj := ToBody(rootElementChild.value);
    assert obj == ToBody(StripAttributes(document).children[0]);
    if obj.None? {
      return Failure(UnrecognizedBody());
    }
    r := Success(Message(transport.headers, obj.value));
  }
}

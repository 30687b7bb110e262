/** Properties of the XML envelope: namespace precedence, root attributes, and validation. */
module SerializerProperties {

  import opened Wrappers
  import opened Xml
  import opened Types
  import opened JsonXml
  import opened Exceptions
  import opened Options
  import opened Decimal
  import opened XmlSerializer
  import Headers

  // ---------------------------------------------------------------------
  // Namespace resolution

  /** With namespaces disabled the namespace is empty, whatever the headers say. */
  lemma NamespaceDisabledIsEmpty(
    options: XmlSerializingOptions, parseUri: UriParser, headers: HeaderMap, t: Option<TypeDesc>
  )
    requires !options.includeNamespace
    ensures DefineNamespaceOfMessage(options, parseUri, headers, t) == Success("")
  {
  }

  /** The `Namespace` header is used verbatim, and the prefix header is then ignored. */
  lemma NamespaceHeaderIsVerbatim(
    options: XmlSerializingOptions, parseUri: UriParser, headers: HeaderMap, t: Option<TypeDesc>, prefix: string
  )
    requires options.includeNamespace && Headers.Namespace in headers
    ensures DefineNamespaceOfMessage(options, parseUri, headers, t) == Success(headers[Headers.Namespace])
    ensures DefineNamespaceOfMessage(options, parseUri, headers[Headers.NamespacePrefix := prefix], t)
         == DefineNamespaceOfMessage(options, parseUri, headers, t)
    ensures DefineNamespaceOfMessage(options, parseUri, headers - {Headers.NamespacePrefix}, t)
         == DefineNamespaceOfMessage(options, parseUri, headers, t)
  {
    Headers.NamespaceKeys();
  }

  /**
   * Without the `Namespace` header the namespace is the URI of the prefix
   * header, or of the configured default prefix when that header is absent,
   * followed by the type's namespace; a prefix that is not a URI fails with
   * `UriFormatException`, and an unresolved type then fails to be read.
   */
  lemma NamespaceFromPrefix(
    options: XmlSerializingOptions, parseUri: UriParser, headers: HeaderMap, t: Option<TypeDesc>
  )
    requires options.includeNamespace && Headers.Namespace !in headers
    ensures var prefix := if Headers.NamespacePrefix in headers then headers[Headers.NamespacePrefix]
                          else options.defaultNamespacePrefix;
            var r := DefineNamespaceOfMessage(options, parseUri, headers, t);
            && (parseUri(prefix).Parsed? && t.Some? ==> r == Success(parseUri(prefix).text + t.value.namespaceName))
            && (parseUri(prefix).Parsed? && t.None? ==> r == Failure(NullDereference()))
            && (parseUri(prefix).Malformed? ==> r == Failure(InvalidUri(parseUri(prefix).reason)))
  {
  }

  /** A successful namespace built from a prefix always ends in the type's namespace. */
  lemma NamespaceEndsWithTypeNamespace(
    options: XmlSerializingOptions, parseUri: UriParser, headers: HeaderMap, t: TypeDesc
  )
    requires options.includeNamespace && Headers.Namespace !in headers
    requires DefineNamespaceOfMessage(options, parseUri, headers, Some(t)).Success?
    ensures var ns := DefineNamespaceOfMessage(options, parseUri, headers, Some(t)).value;
            |t.namespaceName| <= |ns| && ns[|ns| - |t.namespaceName|..] == t.namespaceName
  {
    var prefix := if Headers.NamespacePrefix in headers then headers[Headers.NamespacePrefix]
                  else options.defaultNamespacePrefix;
    var u := parseUri(prefix).text;
    assert (u + t.namespaceName)[|u|..] == t.namespaceName;
  }

  /** Only the two namespace keys matter: headers that agree on them give the same namespace. */
  lemma NamespaceReadsOnlyItsHeaders(
    options: XmlSerializingOptions, parseUri: UriParser, h1: HeaderMap, h2: HeaderMap, t: Option<TypeDesc>
  )
    requires Headers.Namespace in h1 <==> Headers.Namespace in h2
    requires Headers.Namespace in h1 ==> h1[Headers.Namespace] == h2[Headers.Namespace]
    requires Headers.NamespacePrefix in h1 <==> Headers.NamespacePrefix in h2
    requires Headers.NamespacePrefix in h1 ==> h1[Headers.NamespacePrefix] == h2[Headers.NamespacePrefix]
    ensures DefineNamespaceOfMessage(options, parseUri, h1, t) == DefineNamespaceOfMessage(options, parseUri, h2, t)
  {
  }

  /**
   * Header lookup is by exact key: a lone prefix header, whose key extends
   * the `Namespace` key, is taken as a prefix and not as the namespace.
   */
  lemma PrefixHeaderIsNoOverride(options: XmlSerializingOptions, parseUri: UriParser, prefix: string, t: TypeDesc)
    requires options.includeNamespace
    requires parseUri(prefix).Parsed?
    ensures DefineNamespaceOfMessage(options, parseUri, map[Headers.NamespacePrefix := prefix], Some(t))
         == Success(parseUri(prefix).text + t.namespaceName)
  {
    Headers.NamespaceKeys();
  }

  /** The namespace of the unit test's envelope: the default prefix with a trailing "/" and the type's namespace. */
  lemma DefaultNamespaceExample(parseUri: UriParser, t: TypeDesc)
    requires parseUri("http://tempuri.org") == Parsed("http://tempuri.org/")
    requires t.namespaceName == "ReBus.Serializer.XML.UnitTests.Messages"
    ensures DefineNamespaceOfMessage(DefaultOptions().(includeNamespace := true), parseUri, map[], Some(t))
         == Success("http://tempuri.org/" + "ReBus.Serializer.XML.UnitTests.Messages")
  {
  }

  // ---------------------------------------------------------------------
  // Base-type attributes

  /**
   * One attribute per base type other than `object`, in order; the first is
   * named `xmlns:{prefix}` and the i-th after it `xmlns:{prefix}{i}`; each
   * is valued with the type's full name.
   */
  lemma BaseTypeAttributesLayout(prefix: string, baseTypes: seq<TypeDesc>)
    ensures var r := BaseTypeAttributes(prefix, baseTypes);
            var types := WithoutObject(baseTypes);
            && |r| == |types|
            && (|r| > 0 ==> r[0].name == "xmlns:" + prefix)
            && (forall i :: 1 <= i < |r| ==> r[i].name == "xmlns:" + prefix + NatToString(i))
            && (forall i :: 0 <= i < |r| ==> r[i].value == types[i].fullName)
  {
    var r := BaseTypeAttributes(prefix, baseTypes);
    if |r| > 0 {
      assert r[0].name == ("xmlns:" + prefix) + "";
    }
  }

  /** Distinct positions give distinct attribute names. */
  lemma {:induction false} BaseTypeAttributeNameInjective(prefix: string, i: nat, j: nat)
    requires i != j
    ensures BaseTypeAttributeName(prefix, i) != BaseTypeAttributeName(prefix, j)
  {
    var head := "xmlns:" + prefix;
    if i != 0 && j != 0 {
      if BaseTypeAttributeName(prefix, i) == BaseTypeAttributeName(prefix, j) {
        var a, b := head + NatToString(i), head + NatToString(j);
        assert |NatToString(i)| == |NatToString(j)|;
        assert NatToString(i) == a[|head|..] == b[|head|..] == NatToString(j);
        NatToStringInjective(i, j);
      }
    } else {
      assert |BaseTypeAttributeName(prefix, i)| != |BaseTypeAttributeName(prefix, j)|;
    }
  }

  /** The base-type attribute names are pairwise distinct. */
  lemma BaseTypeAttributeNamesDistinct(prefix: string, baseTypes: seq<TypeDesc>)
    ensures var r := BaseTypeAttributes(prefix, baseTypes);
            forall i, j :: 0 <= i < j < |r| ==> r[i].name != r[j].name
  {
    var r := BaseTypeAttributes(prefix, baseTypes);
    forall i, j | 0 <= i < j < |r|
      ensures r[i].name != r[j].name
    {
      BaseTypeAttributeNameInjective(prefix, i, j);
    }
  }

  /** `object`, wherever the resolver lists it, contributes no attribute. */
  lemma BaseTypeAttributesSkipObject(prefix: string, before: seq<TypeDesc>, top: TypeDesc, after: seq<TypeDesc>)
    requires top.isObject
    ensures BaseTypeAttributes(prefix, before + [top] + after) == BaseTypeAttributes(prefix, before + after)
  {
    var withTop := before + [top];
    assert [top][1..] == [];
    assert WithoutObject([top]) == [];
    WithoutObjectAppend(before, [top]);
    assert WithoutObject(withTop) == WithoutObject(before);
    WithoutObjectAppend(withTop, after);
    WithoutObjectAppend(before, after);
    assert WithoutObject(withTop + after) == WithoutObject(before + after);
  }

  /** A type whose only base type is `object` (or that has none) gets no base-type attribute. */
  lemma {:induction false} NoBaseTypesNoAttributes(prefix: string, baseTypes: seq<TypeDesc>)
    requires forall k :: 0 <= k < |baseTypes| ==> baseTypes[k].isObject
    ensures BaseTypeAttributes(prefix, baseTypes) == []
    decreases baseTypes
  {
    if baseTypes != [] {
      NoBaseTypesNoAttributes(prefix, baseTypes[1..]);
    }
  }

  // ---------------------------------------------------------------------
  // The root element's attributes

  /**
   * The root element carries `xmlns:xsi`, `xmlns:xsd` and `xmlns` (the
   * resolved namespace), in that order, followed by the base-type
   * attributes exactly when base-type namespaces are enabled.
   */
  lemma RootAttributesLayout(options: XmlSerializingOptions, ns: string, t: TypeDesc)
    ensures var r := RootAttributes(options, ns, t);
            && |r| >= 3
            && r[0] == Attribute("xmlns:xsi", "http://www.w3.org/2001/XMLSchema-instance")
            && r[1] == Attribute("xmlns:xsd", "http://www.w3.org/2001/XMLSchema")
            && r[2] == Attribute("xmlns", ns)
            && (options.includeBaseTypeNamespaces ==>
                  r[3..] == BaseTypeAttributes(options.baseTypeNamespaceAttributeName, t.baseTypes))
            && (!options.includeBaseTypeNamespaces ==> |r| == 3)
  {
  }

  /**
   * Unless the base-type prefix is itself "xsi" or "xsd", no attribute name
   * of the root element occurs twice.
   */
  lemma RootAttributeNamesDistinct(options: XmlSerializingOptions, ns: string, t: TypeDesc)
    requires options.baseTypeNamespaceAttributeName != "xsi" && options.baseTypeNamespaceAttributeName != "xsd"
    ensures var r := RootAttributes(options, ns, t);
            forall i, j :: 0 <= i < j < |r| ==> r[i].name != r[j].name
  {
    var r := RootAttributes(options, ns, t);
    var prefix := options.baseTypeNamespaceAttributeName;
    var bases := if options.includeBaseTypeNamespaces then BaseTypeAttributes(prefix, t.baseTypes) else [];
    assert r == FixedRootAttributes(ns) + bases;
    assert r[3..] == bases;
    BaseTypeAttributeNamesDistinct(prefix, t.baseTypes);
    assert XsiAttributeName[8] != XsdAttributeName[8];
    assert |DefaultNamespaceAttributeName| != |XsiAttributeName| == |XsdAttributeName|;
    forall i, j | 0 <= i < j < |r|
      ensures r[i].name != r[j].name
    {
      if j < 3 {
        assert r[i].name != r[j].name;
      } else if 3 <= i {
        assert r[i] == bases[i - 3] && r[j] == bases[j - 3];
      } else if 3 <= j {
        var k := j - 3;
        assert r[j] == bases[k] && bases[k].name == BaseTypeAttributeName(prefix, k);
        BaseTypeNameIsNoFixedName(prefix, k);
      }
    }
  }

  lemma BaseTypeNameIsNoFixedName(prefix: string, k: nat)
    requires prefix != "xsi" && prefix != "xsd"
    ensures BaseTypeAttributeName(prefix, k) != "xmlns:xsi"
    ensures BaseTypeAttributeName(prefix, k) != "xmlns:xsd"
    ensures BaseTypeAttributeName(prefix, k) != "xmlns"
  {
    var name := BaseTypeAttributeName(prefix, k);
    assert name[..6] == "xmlns:";
    if k == 0 {
      assert name == "xmlns:" + prefix;
      assert name[6..] == prefix;
    } else {
      var digits := NatToString(k);
      assert name == ("xmlns:" + prefix) + digits;
      assert name[|name| - 1] == digits[|digits| - 1];
      assert '0' <= name[|name| - 1] <= '9';
    }
  }

  // ---------------------------------------------------------------------
  // Composing the envelope

  /** The envelope's root is named by the options and has exactly one child: the body element named after its type. */
  lemma EnvelopeShape(options: XmlSerializingOptions, ns: string, t: TypeDesc, body: Body)
    ensures var e := Envelope(options, ns, t, body);
            && e.name == options.rootName
            && e.attrs == RootAttributes(options, ns, t)
            && |e.children| == 1
            && e.children[0].Element?
            && NodeName(e.children[0]) == t.name
            && ToBody(e.children[0]) == Some(body)
  {
    ToBodyOfToXmlElement(t.name, body);
  }

  /**
   * Serializing succeeds exactly when the type is resolved and the
   * namespace can be formed. A namespace failure comes first; then an
   * unresolved type fails with `NullReferenceException` when base-type
   * namespaces are on and with `InvalidOperationException` otherwise. On
   * success the headers are passed on untouched.
   */
  lemma SerializeOutcome(options: XmlSerializingOptions, parseUri: UriParser, message: Message, messageType: Option<TypeDesc>)
    ensures var r := Encoded(options, parseUri, message, messageType);
            var ns := DefineNamespaceOfMessage(options, parseUri, message.headers, messageType);
            && (r.Success? <==> messageType.Some? && ns.Success?)
            && (ns.Failure? ==> r == Failure(ns.error))
            && (ns.Success? && messageType.None? && options.includeBaseTypeNamespaces ==>
                  r.Failure? && r.error.kind == NullReference)
            && (ns.Success? && messageType.None? && !options.includeBaseTypeNamespaces ==>
                  r == Failure(UnresolvedMessageType()))
            && (r.Success? ==> r.value.headers == message.headers)
  {
  }

  /**
   * With an unresolved type, a namespace built from a prefix fails before
   * anything else: a malformed prefix with `UriFormatException`, a
   * well-formed one with `NullReferenceException`.
   */
  lemma UnresolvedTypeFailsAtNamespace(options: XmlSerializingOptions, parseUri: UriParser, message: Message)
    requires options.includeNamespace && Headers.Namespace !in message.headers
    ensures var r := Encoded(options, parseUri, message, None);
            r.Failure? && (r.error.kind == UriFormat || r.error == NullDereference())
  {
  }

  /** The type of the unit tests' message. */
  const TestType: TypeDesc :=
    TypeDesc("TestMessageWithProtectedSetters", "ReBus.Serializer.XML.UnitTests.Messages",
             "ReBus.Serializer.XML.UnitTests.Messages.TestMessageWithProtectedSetters", [], false)

  /** The namespace of the unit tests' envelopes. */
  const TestNamespace: string := "http://tempuri.org/ReBus.Serializer.XML.UnitTests.Messages"

  /**
   * The unit test's envelope for a three-property message with namespaces
   * on: the document whose text the test compares against.
   */
  lemma SerializeExample(parseUri: UriParser, guid: string, enumName: string, date: string)
    requires parseUri("http://tempuri.org") == Parsed("http://tempuri.org/")
    ensures
      var t := TestType;
      var body := Body([Property("GuidProp", guid), Property("EnumProp", enumName), Property("DateTimeProp", date)]);
      var document := Element("Messages",
        [ Attribute("xmlns:xsi", "http://www.w3.org/2001/XMLSchema-instance"),
          Attribute("xmlns:xsd", "http://www.w3.org/2001/XMLSchema"),
          Attribute("xmlns", "http://tempuri.org/" + "ReBus.Serializer.XML.UnitTests.Messages") ],
        [ Element("TestMessageWithProtectedSetters", [],
            [ PropertyElement(Property("GuidProp", guid)),
              PropertyElement(Property("EnumProp", enumName)),
              PropertyElement(Property("DateTimeProp", date)) ]) ]);
      Encoded(DefaultOptions().(includeNamespace := true), parseUri, Message(map[], body), Some(t))
      == Success(TransportMessage(map[], "<?xml version=\"1.0\"?>" + Render(document)))
  {
    var t := TestType;
    var props := [Property("GuidProp", guid), Property("EnumProp", enumName), Property("DateTimeProp", date)];
    var options := DefaultOptions().(includeNamespace := true);
    var ns := "http://tempuri.org/" + "ReBus.Serializer.XML.UnitTests.Messages";
    DefaultNamespaceExample(parseUri, t);
    assert DefineNamespaceOfMessage(options, parseUri, map[], Some(t)) == Success(ns);
    assert PropertyElements(props) == [PropertyElement(props[0]), PropertyElement(props[1]), PropertyElement(props[2])];
    assert RootAttributes(options, ns, t)
        == [ Attribute("xmlns:xsi", "http://www.w3.org/2001/XMLSchema-instance"),
             Attribute("xmlns:xsd", "http://www.w3.org/2001/XMLSchema"),
             Attribute("xmlns", ns) ];
    assert Declaration(options.encoding) == "<?xml version=\"1.0\"?>";
  }

  // ---------------------------------------------------------------------
  // Validating an envelope

  /**
   * Without the type header deserializing fails at once: the outcome does
   * not depend on the document or on type resolution.
   */
  lemma DeserializeNeedsTypeHeader(
    resolve1: TypeResolver, resolve2: TypeResolver, transport: TransportMessage, d1: ElementNode, d2: ElementNode
  )
    requires Headers.MessageType !in transport.headers
    ensures Decoded(resolve1, transport, d1) == Failure(MissingTypeHeader())
    ensures Decoded(resolve1, transport, d1) == Decoded(resolve2, transport, d2)
    ensures Decoded(resolve1, transport, d1).error.kind == InvalidOperation
  {
  }

  /** A root with more than one child node fails with the array error carrying the original text. */
  lemma DeserializeRejectsSeveralChildren(resolve: TypeResolver, transport: TransportMessage, document: ElementNode)
    requires Headers.MessageType in transport.headers
    requires |document.children| > 1
    ensures var r := Decoded(resolve, transport, document);
            && r == Failure(NotSupportedArrayOfObjectsInBody(transport.body))
            && r.error.kind == ArrayOfObjectsInBody
            && r.error.data[ContentKey] == transport.body
  {
  }

  /** The missing-header message names the header it requires. */
  lemma MissingTypeHeaderNamesKey()
    ensures var m := MissingTypeHeader().message;
            var at := |SerializerFullName + " deserialization requires `"|;
            && |m| > at + |Headers.MessageType|
            && m[at..at + |Headers.MessageType|] == Headers.MessageType
  {
    var pre := SerializerFullName + " deserialization requires `";
    assert MissingTypeHeader().message == pre + Headers.MessageType + "` in message headers";
  }

  /** The mismatch message names the element found and the type expected. */
  lemma TypeMismatchNamesBoth(observed: string, expected: string)
    ensures var m := TypeMismatch(observed, expected).message;
            var at := 24 + |observed| + 22;
            && |m| >= at + |expected|
            && m[24..24 + |observed|] == observed
            && m[at..at + |expected|] == expected
  {
  }

  /**
   * A single child whose name is not the resolved type's name fails with
   * `InvalidOperationException` naming both; so does an empty root.
   */
  lemma DeserializeRejectsMismatch(resolve: TypeResolver, transport: TransportMessage, document: ElementNode, t: TypeDesc)
    requires Headers.MessageType in transport.headers
    requires resolve(transport.headers[Headers.MessageType]) == Some(t)
    requires |document.children| <= 1
    requires |document.children| == 1 ==> NodeName(document.children[0]) != t.name
    ensures var observed := if |document.children| == 1 then NodeName(document.children[0]) else "";
            var r := Decoded(resolve, transport, document);
            && r == Failure(TypeMismatch(observed, t.name))
            && r.error.kind == InvalidOperation
  {
  }

  /**
   * A child of the right name that is not a recognizable body fails with a
   * plain `NotSupportedException`, not with the array error.
   */
  lemma DeserializeRejectsUnrecognized(resolve: TypeResolver, transport: TransportMessage, document: ElementNode, t: TypeDesc)
    requires Headers.MessageType in transport.headers
    requires resolve(transport.headers[Headers.MessageType]) == Some(t)
    requires |document.children| == 1 && NodeName(document.children[0]) == t.name
    requires ToBody(document.children[0]).None?
    ensures var r := Decoded(resolve, transport, document);
            && r == Failure(UnrecognizedBody())
            && r.error.kind == NotSupported && r.error.kind != ArrayOfObjectsInBody
  {
  }

  /**
   * Deserializing succeeds exactly when the type header is present, the
   * root has one child node, the type resolves, the child carries the
   * type's name and converts to a body; it then returns that body with the
   * transport headers.
   */
  lemma DeserializeSucceedsExactly(resolve: TypeResolver, transport: TransportMessage, document: ElementNode)
    ensures var r := Decoded(resolve, transport, document);
            r.Success? <==>
              && Headers.MessageType in transport.headers
              && |document.children| == 1
              && resolve(transport.headers[Headers.MessageType]).Some?
              && NodeName(document.children[0]) == resolve(transport.headers[Headers.MessageType]).value.name
              && ToBody(document.children[0]).Some?
    ensures var r := Decoded(resolve, transport, document);
            r.Success? ==> r.value == Message(transport.headers, ToBody(document.children[0]).value)
  {
    var r := Decoded(resolve, transport, document);
    if Headers.MessageType in transport.headers && |document.children| == 1 {
      var child := document.children[0];
      var t := resolve(transport.headers[Headers.MessageType]);
      assert StripAttributes(document).children == [child];
      if t.Some? && NodeName(child) == t.value.name {
        assert ChildName(Some(child)) == TypeName(t);
        assert r == (match ToBody(child) case None => Failure(UnrecognizedBody())
                                         case Some(b) => Success(Message(transport.headers, b)));
      } else {
        assert ChildName(Some(child)) != TypeName(t);
        assert r.Failure?;
      }
    }
  }

  /**
   * Every child node counts, not only elements: a comment beside the body
   * element makes two children, and the array error is raised.
   */
  lemma DeserializeCountsCommentNode(resolve: TypeResolver, transport: TransportMessage, t: TypeDesc, body: Body)
    requires Headers.MessageType in transport.headers
    ensures var document := Element("Messages", [], [Other("#comment", "<!--c-->"), ToXmlElement(t.name, body)]);
            Decoded(resolve, transport, document) == Failure(NotSupportedArrayOfObjectsInBody(transport.body))
  {
  }

  /** A lone CDATA section is compared by its node name "#cdata-section" and fails the name check. */
  lemma DeserializeRejectsCDataSection(resolve: TypeResolver, transport: TransportMessage, t: TypeDesc)
    requires Headers.MessageType in transport.headers
    requires resolve(transport.headers[Headers.MessageType]) == Some(t)
    requires t.name != "#cdata-section"
    ensures var document := Element("Messages", [], [Other("#cdata-section", "<![CDATA[x]]>")]);
            Decoded(resolve, transport, document) == Failure(TypeMismatch("#cdata-section", t.name))
  {
  }

  /** The root element's name and attributes play no part in validation. */
  lemma DeserializeIgnoresRoot(
    resolve: TypeResolver, transport: TransportMessage, document: ElementNode, name: string, attrs: seq<Attribute>
  )
    ensures Decoded(resolve, transport, document) == Decoded(resolve, transport, Element(name, attrs, document.children))
  {
  }

  /**
   * Deserializing the envelope serialized for type `t` against `t` gives
   * back the original message, whatever the namespace and root attributes.
   */
  lemma {:induction false} DeserializeInvertsSerialize(
    options: XmlSerializingOptions, parseUri: UriParser, resolve: TypeResolver, message: Message, t: TypeDesc
  )
    requires Headers.MessageType in message.headers
    requires resolve(message.headers[Headers.MessageType]) == Some(t)
    requires DefineNamespaceOfMessage(options, parseUri, message.headers, Some(t)).Success?
    ensures var ns := DefineNamespaceOfMessage(options, parseUri, message.headers, Some(t)).value;
            var transport := Encoded(options, parseUri, message, Some(t));
            && transport.Success?
            && Decoded(resolve, transport.value, Envelope(options, ns, t, message.body)) == Success(message)
  {
    ToBodyOfToXmlElement(t.name, message.body);
  }

  /** The unit test's incoming envelope deserializes to its three properties, with the headers unchanged. */
  lemma DeserializeExample(resolve: TypeResolver, text: string, typeName: string, guid: string, date: string)
    requires resolve(typeName) == Some(TestType)
    requires guid != "" && date != ""
    ensures
      var headers := map[Headers.MessageType := typeName];
      var document := Element("Messages",
        [ Attribute(XsiAttributeName, XsiNamespace),
          Attribute(XsdAttributeName, XsdNamespace),
          Attribute(DefaultNamespaceAttributeName, TestNamespace) ],
        [ Element(TestType.name, [],
            [ Element("GuidProp", [], [Text(guid)]),
              Element("EnumProp", [], [Text("Success")]),
              Element("DateTimeProp", [], [Text(date)]) ]) ]);
      Decoded(resolve, TransportMessage(headers, text), document)
      == Success(Message(headers,
           Body([Property("GuidProp", guid), Property("EnumProp", "Success"), Property("DateTimeProp", date)])))
  {
    var props := [Property("GuidProp", guid), Property("EnumProp", "Success"), Property("DateTimeProp", date)];
    var children := [ Element("GuidProp", [], [Text(guid)]),
                      Element("EnumProp", [], [Text("Success")]),
                      Element("DateTimeProp", [], [Text(date)]) ];
    assert children == PropertyElements(props);
    PropertiesOfElements(props);
    var child := Element(TestType.name, [], children);
    assert ToBody(child) == Some(Body(props));
  }
}

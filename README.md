# XML message envelope of ReBus.Serializer.XML, in Dafny

This project models the envelope logic of the Rebus XML serializer:

- how `Serialize` wraps a message body in an XML document;
- how `Deserialize` validates such a document and unwraps it.

On the way out, the serializer works out the XML namespace from its options and two message headers. It opens a root element named by the options. The root carries the `xmlns:xsi`, `xmlns:xsd` and `xmlns` attributes, plus one `xmlns:{prefix}[i]` attribute per base type when base-type namespaces are enabled. Inside the root it writes exactly one child: the body, converted to an element named after the body type's short name. The message headers go out untouched.

On the way in, it runs these steps in order:

1. require the message-type header;
2. strip the root's attributes;
3. reject a root with more than one child node, with `NotSupportedArrayOfObjectsInBody` carrying the raw text;
4. reject a first child whose name is not the resolved type's name;
5. reject a body that converts to null;
6. return the converted body with the transport headers.

Modules, one per source file or collaborator:

- `Headers` (header keys), `Options` (the options record and its defaults), `Exceptions` (the exception kinds, including `NotSupportedArrayOfObjectsInBody`).
- `Xml`: the node tree (elements, text, and any other node kind such as a comment, a CDATA section or a processing instruction, by its node name), its text rendering, the `XmlTextWriter` the envelope is written into (a class whose methods append attributes and content), and the `XmlElement` root of a loaded document (a class whose `RemoveAllAttributes` mutates it).
- `Types`: the resolved type descriptor and the filter that drops `object` from the base types.
- `JsonXml`: a restricted stand-in for the JSON↔XML conversion. A body is a flat object whose properties keep their order and hold scalar text.
- `XmlSerializer`: the operations and the exceptions the serializer raises itself. The writer-driven methods are proved against the specification functions `DefineNamespaceOfMessage`, `RootAttributes`, `Envelope`, `Encoded` and `Decoded`.
- `SerializerProperties`: the lemmas relating them.
- `Decimal` and `Wrappers`: small helpers (decimal rendering of the attribute index; `Option`).

Facts about the code the model rests on:

- XmlSerializingOptions.cs:8 declares `IncludeNamespace` without an initializer, so namespaces are off by default.
- `IncludeBaseTypeNamespaces` and `BaseTypeNamespaceAttributeName` are read at XmlSerializer.cs:100 and :119 but not declared in XmlSerializingOptions.cs. The model assumes the defaults `false` and `"baseType"`.
- The code raises no error of its own for an array body. It fails inside `DeserializeXmlNode` (:79), which is not modelled.
- A prefix that is not a URI fails with whatever `new Uri` throws (:140). The model builds a `UriFormatException` whose message is the reason the `parseUri` parameter gives.
- The type used on the way out is the one `Type.GetType(message.GetMessageType())` resolves (:48). The model takes that result, possibly null (`None`), as an input.
- For an unresolved type, the model follows the order in which the code fails:
  1. the namespace fails first: a `UriFormatException` at :140-144, or a `NullReferenceException` at :146 when the namespace is built from a prefix;
  2. then, with base-type namespaces on, a `NullReferenceException` when the base types are read at :108-111;
  3. otherwise, the `InvalidOperationException` at :81.

## Model

| member | source | states |
|---|---|---|
| `Headers.NamespaceKeys` | src/ReBus.Serializer.XML/Headers.cs:8-16 | the two keys are "rbs2-xml-ns" and "rbs2-xml-ns-prefix"; they are distinct, the first is a proper prefix of the second, and both differ from the message-type key |
| `Options.DefaultOptions` | src/ReBus.Serializer.XML/XmlSerializingOptions.cs:5-12 | defaults: root name "Messages", namespaces off, default prefix "http://tempuri.org", null encoding (plus base-type attributes off, prefix "baseType") |
| `Exceptions.NotSupportedArrayOfObjectsInBody` | src/ReBus.Serializer.XML/Exceptions/NotSupportedArrayOfObjectsInBody.cs:5-13 | the exception is of the array kind, which is a `NotSupportedException` yet distinct from a plain one; its message is the fixed text; its data holds exactly the content under "Content" |
| `Exceptions.ArrayOfObjectsContent` | src/ReBus.Serializer.XML/Exceptions/NotSupportedArrayOfObjectsInBody.cs:9-12 | the message does not depend on the content, and two such exceptions are equal exactly when their contents are |
| `Decimal.NatToString` | src/ReBus.Serializer.XML/XmlSerializer.cs:123 | the interpolated index is a non-empty string of decimal digits, and at least two digits from 10 on |
| `Decimal.NatToStringInjective` | src/ReBus.Serializer.XML/XmlSerializer.cs:123 | different indexes render differently |
| `Xml.NodeName` | src/ReBus.Serializer.XML/XmlSerializer.cs:178 | defines `XmlNode.Name` as the model reads it: the tag of an element, "#text" for a text node, the node name ("#comment", "#cdata-section", …) for any other kind; what it implies is proved in the `Decoded` lemmas |
| `Xml.StripAttributes` | src/ReBus.Serializer.XML/XmlSerializer.cs:167 | defines the root after `Attributes.RemoveAll()`: the same name and child nodes, no attribute |
| `Xml.XmlElement.constructor` | src/ReBus.Serializer.XML/XmlSerializer.cs:164-166 | the loaded document's root element holds the parsed root's name, attributes and child nodes |
| `Xml.XmlElement.RemoveAllAttributes` | src/ReBus.Serializer.XML/XmlSerializer.cs:167 | the root element afterwards equals the old root with its attributes stripped |
| `Xml.XmlElement.FirstChild` | src/ReBus.Serializer.XML/XmlSerializer.cs:176 | defines `FirstChild`: the first child node when there is one, null otherwise |
| `Xml.XmlTextWriter.constructor` | src/ReBus.Serializer.XML/XmlSerializer.cs:45-46 | a fresh writer over the given encoding has written nothing |
| `Xml.XmlTextWriter.WriteStartDocument` | src/ReBus.Serializer.XML/XmlSerializer.cs:64 | moves the writer into the prolog and writes no element |
| `Xml.XmlTextWriter.WriteStartElement` | src/ReBus.Serializer.XML/XmlSerializer.cs:94 | opens the root element with the given name, no attributes and no content |
| `Xml.XmlTextWriter.WriteAttributeString` | src/ReBus.Serializer.XML/XmlSerializer.cs:96-98 | appends exactly one attribute to the open root and changes nothing else |
| `Xml.XmlTextWriter.WriteRaw` | src/ReBus.Serializer.XML/XmlSerializer.cs:84 | appends the given markup to the root's content |
| `Xml.XmlTextWriter.WriteEndDocument` | src/ReBus.Serializer.XML/XmlSerializer.cs:69 | closes the document without changing what was written |
| `Xml.XmlTextWriter.Document` | src/ReBus.Serializer.XML/XmlSerializer.cs:50 | defines the document written so far: the root with the written name, attributes and content |
| `Types.WithoutObject` | src/ReBus.Serializer.XML/XmlSerializer.cs:108-111 | the filtered base types are exactly the non-`object` ones, none of them `object`, no more than before |
| `Types.WithoutObjectAppend` | src/ReBus.Serializer.XML/XmlSerializer.cs:108-111 | filtering keeps the resolver's order: it distributes over concatenation |
| `Types.WithoutObjectKeeps` | src/ReBus.Serializer.XML/XmlSerializer.cs:110 | a list without `object` passes the filter unchanged |
| `JsonXml.PropertyElement` | src/ReBus.Serializer.XML/XmlSerializer.cs:79-82 | a property becomes an element named by its key, without attributes |
| `JsonXml.PropertyElements` | src/ReBus.Serializer.XML/XmlSerializer.cs:79-82 | one element per property, in property order |
| `JsonXml.ToXmlElement` | src/ReBus.Serializer.XML/XmlSerializer.cs:79-82 | the converted body is an element named by the requested root name with one child per property, each child named by its key, in order |
| `JsonXml.PropertyOf` | src/ReBus.Serializer.XML/XmlSerializer.cs:185-187 | a recognised property comes from an element and carries the element's name as its key |
| `JsonXml.PropertiesOf` | src/ReBus.Serializer.XML/XmlSerializer.cs:185-187 | a recognised list has one property per child node |
| `JsonXml.ToBody` | src/ReBus.Serializer.XML/XmlSerializer.cs:185-187 | a recognised body comes from an element and has one property per child node |
| `JsonXml.PropertiesOfElements` | src/ReBus.Serializer.XML/XmlSerializer.cs:185-187 | reading back the elements of a property list gives the list |
| `JsonXml.ToBodyOfToXmlElement` | src/ReBus.Serializer.XML/XmlSerializer.cs:185-187 | converting a body to an element (under any name) and back gives the body |
| `XmlSerializer.IncludeBaseTypesInElement` | src/ReBus.Serializer.XML/XmlSerializer.cs:106-125 | appends exactly the base-type attributes (one per non-`object` base type, in order) to the open root and nothing else |
| `XmlSerializer.WriteRootContainerElement` | src/ReBus.Serializer.XML/XmlSerializer.cs:87-104 | on a namespace failure nothing is written and that failure is returned; otherwise the root is opened under the configured name with the three fixed attributes, then the base-type attributes when enabled; an unresolved type with base-type namespaces on fails with `NullReferenceException` after the fixed attributes |
| `XmlSerializer.SerializeAndWriteXmlMessage` | src/ReBus.Serializer.XML/XmlSerializer.cs:72-85 | an unresolved type fails with `InvalidOperationException` and writes nothing; otherwise the body, converted under the type's short name, is appended as the root's content |
| `XmlSerializer.ComposeXmlMessage` | src/ReBus.Serializer.XML/XmlSerializer.cs:58-70 | fails with the exception `Encoded` names, or closes a document equal to the envelope for the resolved namespace and type |
| `XmlSerializer.Serialize` | src/ReBus.Serializer.XML/XmlSerializer.cs:43-56 | the result is `Encoded`: the namespace failure first, then the unresolved type's exception, otherwise the envelope's text with the input headers unchanged |
| `XmlSerializer.Deserialize` | src/ReBus.Serializer.XML/XmlSerializer.cs:149-195 | the result is `Decoded` for the parsed document, and on success the headers are the transport headers |
| `XmlSerializer.DefineNamespaceOfMessage` | src/ReBus.Serializer.XML/XmlSerializer.cs:127-147 | with namespaces off the result is ""; it fails only when namespaces are on and the `Namespace` header is absent, with `UriFormatException`, or with `NullReferenceException` for an unresolved type; a success on that path implies a resolved type |
| `XmlSerializer.UnresolvedMessageType` | src/ReBus.Serializer.XML/XmlSerializer.cs:81 | a parameterless `InvalidOperationException` with no data, not caught as `NotSupportedException` |
| `XmlSerializer.MissingTypeHeader` | src/ReBus.Serializer.XML/XmlSerializer.cs:159-161 | an `InvalidOperationException` with no data |
| `XmlSerializer.TypeMismatch` | src/ReBus.Serializer.XML/XmlSerializer.cs:180-182 | an `InvalidOperationException` with no data |
| `XmlSerializer.UnrecognizedBody` | src/ReBus.Serializer.XML/XmlSerializer.cs:190-192 | a plain `NotSupportedException` with no data, distinct from the array kind |
| `XmlSerializer.NullDereference` | src/ReBus.Serializer.XML/XmlSerializer.cs:146 | a `NullReferenceException` with no data, not a `NotSupportedException` |
| `XmlSerializer.InvalidUri` | src/ReBus.Serializer.XML/XmlSerializer.cs:140-144 | the `UriFormatException` of `new Uri`, with the parser's reason as its message |
| `XmlSerializer.BaseTypeAttributeName` | src/ReBus.Serializer.XML/XmlSerializer.cs:119-123 | the name is at least as long as `xmlns:{prefix}`, and has exactly that length only for the first base type: every later one carries its index |
| `SerializerProperties.NamespaceDisabledIsEmpty` | src/ReBus.Serializer.XML/XmlSerializer.cs:129-132 | with namespaces off the namespace is "" whatever the headers hold |
| `SerializerProperties.NamespaceHeaderIsVerbatim` | src/ReBus.Serializer.XML/XmlSerializer.cs:135-138 | a present `Namespace` header is used verbatim, and adding, changing or removing the prefix header changes nothing |
| `SerializerProperties.NamespaceFromPrefix` | src/ReBus.Serializer.XML/XmlSerializer.cs:140-146 | otherwise the namespace is the URI of the prefix header (or of the default prefix) followed by the type's namespace; a prefix that is not a URI fails with `UriFormatException`; an unresolved type then fails with `NullReferenceException` |
| `SerializerProperties.NamespaceEndsWithTypeNamespace` | src/ReBus.Serializer.XML/XmlSerializer.cs:146 | a namespace built from a prefix ends with the type's namespace |
| `SerializerProperties.NamespaceReadsOnlyItsHeaders` | src/ReBus.Serializer.XML/XmlSerializer.cs:134-144 | headers that agree on the two namespace keys give the same namespace |
| `SerializerProperties.PrefixHeaderIsNoOverride` | src/ReBus.Serializer.XML/Headers.cs:11-16 | lookup is by exact key: a lone prefix header, although its key extends the `Namespace` key, is used as a prefix |
| `SerializerProperties.DefaultNamespaceExample` | tests/ReBus.Serializer.XML.UnitTests/XmlSerializerTests.cs:55 | with the default prefix rendered as "http://tempuri.org/", the test's namespace is that URI followed by the type's namespace |
| `SerializerProperties.BaseTypeAttributesLayout` | src/ReBus.Serializer.XML/XmlSerializer.cs:113-124 | N non-`object` base types give exactly N attributes: `xmlns:{p}` first, then `xmlns:{p}{i}`, each valued with the i-th type's full name |
| `SerializerProperties.BaseTypeAttributeNameInjective` | src/ReBus.Serializer.XML/XmlSerializer.cs:119-123 | distinct positions get distinct attribute names |
| `SerializerProperties.BaseTypeAttributeNamesDistinct` | src/ReBus.Serializer.XML/XmlSerializer.cs:119-123 | the base-type attribute names are pairwise distinct |
| `SerializerProperties.BaseTypeAttributesSkipObject` | src/ReBus.Serializer.XML/XmlSerializer.cs:110 | `object`, wherever it is listed, contributes no attribute and does not shift the numbering |
| `SerializerProperties.NoBaseTypesNoAttributes` | src/ReBus.Serializer.XML/XmlSerializer.cs:113-117 | no base type other than `object` gives no attribute |
| `SerializerProperties.RootAttributesLayout` | src/ReBus.Serializer.XML/XmlSerializer.cs:94-103 | the root attributes are `xmlns:xsi`, `xmlns:xsd` with the W3C URIs and `xmlns` with the namespace, in that order, followed by the base-type attributes exactly when enabled |
| `SerializerProperties.RootAttributeNamesDistinct` | src/ReBus.Serializer.XML/XmlSerializer.cs:96-124 | unless the base-type prefix is "xsi" or "xsd", no root attribute name occurs twice |
| `SerializerProperties.BaseTypeNameIsNoFixedName` | src/ReBus.Serializer.XML/XmlSerializer.cs:96-123 | a base-type attribute name never equals one of the three fixed names unless the prefix is "xsi" or "xsd" |
| `SerializerProperties.EnvelopeShape` | src/ReBus.Serializer.XML/XmlSerializer.cs:58-98 | the envelope root is named by the options, carries the root attributes and has exactly one child: an element named by the type's short name that converts back to the body |
| `SerializerProperties.SerializeOutcome` | src/ReBus.Serializer.XML/XmlSerializer.cs:43-146 | serializing succeeds exactly when the type is resolved and the namespace can be formed; a namespace failure is returned as it is; after it, an unresolved type fails with `NullReferenceException` when base-type namespaces are on and `InvalidOperationException` otherwise; a success keeps the input headers |
| `SerializerProperties.UnresolvedTypeFailsAtNamespace` | src/ReBus.Serializer.XML/XmlSerializer.cs:140-146 | with an unresolved type and a namespace built from a prefix, serializing fails at the namespace: `UriFormatException` or `NullReferenceException` |
| `SerializerProperties.SerializeExample` | tests/ReBus.Serializer.XML.UnitTests/XmlSerializerTests.cs:39-62 | the test's message serializes to the declaration followed by the test's envelope: the three root attributes and the three properties in order |
| `SerializerProperties.DeserializeNeedsTypeHeader` | src/ReBus.Serializer.XML/XmlSerializer.cs:157-162 | without the type header the result is the missing-header `InvalidOperationException`, whatever the document and the resolver |
| `SerializerProperties.MissingTypeHeaderNamesKey` | src/ReBus.Serializer.XML/XmlSerializer.cs:159-161 | the missing-header message names the required header key |
| `SerializerProperties.DeserializeRejectsSeveralChildren` | src/ReBus.Serializer.XML/XmlSerializer.cs:169-172 | more than one root child node fails with the array exception carrying the original text |
| `SerializerProperties.DeserializeCountsCommentNode` | src/ReBus.Serializer.XML/XmlSerializer.cs:169-172 | a comment beside the body element is a second child node, so the array exception is raised |
| `SerializerProperties.TypeMismatchNamesBoth` | src/ReBus.Serializer.XML/XmlSerializer.cs:180-182 | the mismatch message contains the observed name and the expected type name at their places |
| `SerializerProperties.DeserializeRejectsMismatch` | src/ReBus.Serializer.XML/XmlSerializer.cs:174-183 | a child whose name is not the type's name, or a missing child, fails with `InvalidOperationException` naming both |
| `SerializerProperties.DeserializeRejectsCDataSection` | src/ReBus.Serializer.XML/XmlSerializer.cs:176-183 | a lone CDATA section is compared by its node name "#cdata-section" and fails the name check |
| `SerializerProperties.DeserializeRejectsUnrecognized` | src/ReBus.Serializer.XML/XmlSerializer.cs:185-193 | a matching child that converts to null fails with a plain `NotSupportedException`, not the array kind |
| `SerializerProperties.DeserializeSucceedsExactly` | src/ReBus.Serializer.XML/XmlSerializer.cs:157-194 | success holds exactly when the header is present, there is one child node, the type resolves, the names agree and the child converts; the result is that body with the transport headers |
| `SerializerProperties.DeserializeIgnoresRoot` | src/ReBus.Serializer.XML/XmlSerializer.cs:166-167 | the outcome depends neither on the root's attributes nor on its name |
| `SerializerProperties.DeserializeInvertsSerialize` | src/ReBus.Serializer.XML/XmlSerializer.cs:43-195 | deserializing the envelope serialized for type T, against T, gives back the original message |
| `SerializerProperties.DeserializeExample` | tests/ReBus.Serializer.XML.UnitTests/XmlSerializerTests.cs:66-107 | the test's incoming envelope gives its three properties with the headers unchanged |

## Left out

- Logging (`WithLogging`, the `_logger` calls, the ASCII rendering for the log) is left out. It has no effect on outcomes.
- The `Task` wrapping is left out; the operations are synchronous.
- Bytes and text encodings are left out. The transport body is the document's text. The output declaration names the encoding when one is set. The input side's `Encoding.Default` decoding is not modelled, so the asymmetry (configurable encoding out, fixed decoding in) is outside the model.
- XML parsing (`LoadXml`) is left out. `Deserialize` receives the parsed root element beside the raw text, and a text that does not parse is not modelled.
- Writer escaping is left out; the rendering writes names and values verbatim.
- `System.Uri` is the `parseUri` parameter. Only its trailing "/" for a bare authority appears, as a hypothesis of the examples.
- Reflection is left out: the resolved `TypeDesc` is an input of `Serialize`, and `Type.GetType` is the `resolve` parameter of `Deserialize`. Base-type order is whatever the resolver yields.
- The Newtonsoft conversions are left out. `JsonXml` stands in for them and only covers flat objects whose properties hold scalar text (enums already by name). Nested objects, arrays and XML-name escaping of keys are not modelled. A node that is not a flat object converts to null in the stand-in.
- The constructor that configures `StringEnumConverter` is left out. The stand-in's values are already text.
- The dependency-injection registration and the build script are not part of this model.
- `XmlSerializer.Serialize`: when base-type namespaces are on, the model takes the exception of `GetBaseTypes()` on a null type (XmlSerializer.cs:108-111) to be a `NullReferenceException`. `GetBaseTypes` is a Rebus extension method that is not part of this model.
- `XmlSerializer.Serialize`: the message of the `UriFormatException` (XmlSerializer.cs:140) is whatever reason `parseUri` gives. The model builds the exception, but not the .NET text.
- The messages of the parameterless `InvalidOperationException` and of `NullReferenceException` are taken to be the .NET defaults.
- `XmlSerializer.Deserialize`: when the root has no child and the type does not resolve, the name check passes (both null). The model then fails with a `NullReferenceException`; what the foreign converter raises for a null node is not visible.
- `JsonXml.ToBody`: the stand-in reads an empty body element (`Body([])`, rendered `<T />`) back as the empty body. What the real converter and `jobj.ToObject` (XmlSerializer.cs:185-187) give for an empty element is not visible.
- `SerializerProperties.RootAttributeNamesDistinct`: when the base-type prefix is "xsi" or "xsd", `RootAttributes` repeats an attribute name and the model still serializes. .NET's `XmlTextWriter` refuses a duplicate attribute, so the model's success there is not the writer's behaviour.
- Child nodes other than elements, text, comments, CDATA sections and processing instructions (entity references, significant whitespace) are not modelled separately. Any such node would take the `Other` form with its node name.
- The message-type header key "rbs2-msg-type" belongs to Rebus (`Rebus.Messages.Headers.Type`) and is not declared in the serializer's sources.

/** The serializer's configuration record. */
module Options {

  import opened Wrappers

  datatype XmlSerializingOptions = XmlSerializingOptions(
    rootName: string,
    includeNamespace: bool,
    defaultNamespacePrefix: string,
    /** The output encoding's name; `None` is a null `Encoding`. */
    encoding: Option<string>,
    includeBaseTypeNamespaces: bool,
    baseTypeNamespaceAttributeName: string
  )

  /** The options a default-constructed `XmlSerializingOptions` holds. */
  function DefaultOptions(): (o: XmlSerializingOptions)
    ensures o.rootName == "Messages"
    ensures !o.includeNamespace
    ensures o.defaultNamespacePrefix == "http://tempuri.org"
    ensures o.encoding == None
    ensures !o.includeBaseTypeNamespaces
    ensures o.baseTypeNamespaceAttributeName == "baseType"
  {
    XmlSerializingOptions("Messages", false, "http://tempuri.org", None, false, "baseType")
  }
}

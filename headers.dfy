/** The header keys the XML serializer reads. */
module Headers {

  /** The message namespace, taken as it is when present. */
  const Namespace: string := "rbs2-xml-ns"

  /** A URI prefix that is combined with the message type's namespace. */
  const NamespacePrefix: string := "rbs2-xml-ns-prefix"

  /**
   * Rebus's own message-type header (`Rebus.Messages.Headers.Type`); it is
   * declared by the host, not by the serializer.
   */
  const MessageType: string := "rbs2-msg-type"

  /** The two serializer keys differ, and the first is a proper prefix of the second. */
  lemma NamespaceKeys()
    ensures Namespace != NamespacePrefix
    ensures Namespace < NamespacePrefix
    ensures MessageType != Namespace && MessageType != NamespacePrefix
  {
  }
}

/** The exceptions the serializer raises, as values. */
module Exceptions {

  /**
   * The .NET exception classes involved. `ArrayOfObjectsInBody` is the sealed
   * subclass `NotSupportedArrayOfObjectsInBody` of `NotSupportedException`.
   */
  datatype Kind = InvalidOperation | NotSupported | ArrayOfObjectsInBody | UriFormat | NullReference

  /** Whether a `catch (NotSupportedException)` would catch this kind. */
  predicate IsNotSupported(k: Kind) {
    k == NotSupported || k == ArrayOfObjectsInBody
  }

  /** An exception: its class, its message and its `Data` dictionary. */
  datatype Exception = Exception(kind: Kind, message: string, data: map<string, string>)

  datatype Result<+T> = Success(value: T) | Failure(error: Exception)

  datatype Outcome = Pass | Fail(error: Exception)

  /** The `Data` key under which the offending content is recorded. */
  const ContentKey: string := "Content"

  const ArrayOfObjectsMessage: string :=
    "Array of objects in a root element in XML serialization/deserialization is not supported."

  /** `new NotSupportedArrayOfObjectsInBody(content)`. */
  function NotSupportedArrayOfObjectsInBody(content: string): (e: Exception)
    ensures e.kind == ArrayOfObjectsInBody
    ensures IsNotSupported(e.kind) && e.kind != NotSupported
    ensures e.message == ArrayOfObjectsMessage
    ensures e.data.Keys == {ContentKey} && e.data[ContentKey] == content
  {
    Exception(ArrayOfObjectsInBody, ArrayOfObjectsMessage, map[ContentKey := content])
  }

  /**
   * The message does not depend on the content, and the content can be read
   * back: two such exceptions are equal exactly when their contents are.
   */
  lemma ArrayOfObjectsContent(c1: string, c2: string)
    ensures NotSupportedArrayOfObjectsInBody(c1).message == NotSupportedArrayOfObjectsInBody(c2).message
    ensures NotSupportedArrayOfObjectsInBody(c1) == NotSupportedArrayOfObjectsInBody(c2) <==> c1 == c2
  {
    if NotSupportedArrayOfObjectsInBody(c1) == NotSupportedArrayOfObjectsInBody(c2) {
      assert NotSupportedArrayOfObjectsInBody(c1).data[ContentKey] == c1;
    }
  }
}

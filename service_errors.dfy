/** ADBServiceError (ADBServiceError.swift): the client's own errors, with errorDescription. */
module ServiceErrors {
  import opened Wrappers

  datatype ADBServiceError =
    | NoConnection
    | ServiceUnavailable
    | XpcError(message: string)

  const NoConnectionText: string := "XPC connection " + "not established"
  const ServiceUnavailableText: string := "Could not connect " + "to XPC service"

  /** Every case has a description, and an XPC error reports its message verbatim. */
  function ErrorDescription(e: ADBServiceError): (r: Option<string>)
    ensures r.Some?
    ensures e.XpcError? ==> r.value == e.message
  {
    match e
    case NoConnection => Some(NoConnectionText)
    case ServiceUnavailable => Some(ServiceUnavailableText)
    case XpcError(message) => Some(message)
  }

  /** The two fixed descriptions differ, and an XPC error is told apart from them only by its text. */
  lemma FixedDescriptionsDistinct(m: string)
    ensures ErrorDescription(NoConnection) != ErrorDescription(ServiceUnavailable)
    ensures ErrorDescription(XpcError(m)) == ErrorDescription(NoConnection) <==> m == NoConnectionText
  {
    assert NoConnectionText[0] != ServiceUnavailableText[0];
  }
}

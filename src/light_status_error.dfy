/** Errors reported by a smart-light adapter and how they are displayed. */
module LightStatusErrors {
  datatype LightStatusError =
    | InvalidStatus(status: string)
    | CommunicationFailure(reason: string)

  const InvalidStatusPrefix: string := "Invalid light status: "
  const CommunicationFailurePrefix: string := "Failed to communicate with the light: "

  /** The `Display` text of an error: a fixed prefix per kind followed by its detail. */
  function Display(e: LightStatusError): (s: string)
  {
    match e
    case InvalidStatus(status) => InvalidStatusPrefix + status
    case CommunicationFailure(reason) => CommunicationFailurePrefix + reason
  }

  /** The text starts with the prefix of the error's kind and ends with its detail. */
  lemma DisplayShape(e: LightStatusError)
    ensures e.InvalidStatus? ==>
      |Display(e)| == |InvalidStatusPrefix| + |e.status| &&
      Display(e)[..|InvalidStatusPrefix|] == InvalidStatusPrefix &&
      Display(e)[|InvalidStatusPrefix|..] == e.status
    ensures e.CommunicationFailure? ==>
      |Display(e)| == |CommunicationFailurePrefix| + |e.reason| &&
      Display(e)[..|CommunicationFailurePrefix|] == CommunicationFailurePrefix &&
      Display(e)[|CommunicationFailurePrefix|..] == e.reason
  {
  }

  /** The displayed text determines the error: kind and detail can be read back. */
  lemma {:induction false} DisplayInjective(e: LightStatusError, f: LightStatusError)
    requires Display(e) == Display(f)
    ensures e == f
  {
    DisplayShape(e);
    DisplayShape(f);
    // The two prefixes differ in their first character, so the kinds agree.
    assert InvalidStatusPrefix[0] != CommunicationFailurePrefix[0];
    assert Display(e)[0] == Display(f)[0];
  }
}

/** The client-facing proof status of the Hierophant and its conversion from what
    a contemplant reports. */
module ProofStatus {
  import opened Network

  // Protobuf codes of FulfillmentStatus.
  const UNSPECIFIED_FULFILLMENT := 0
  const ASSIGNED := 2
  const FULFILLED := 3
  const UNFULFILLABLE := 4

  datatype ClientStatus = ClientStatus(fulfillment: int, execution: int, proof: Bytes)

  const Lost := ClientStatus(UNFULFILLABLE, UNSPECIFIED_EXECUTION, [])
  const Assigned := ClientStatus(ASSIGNED, UNEXECUTED, [])

  // The conversion panics on an executed status without proof bytes.
  datatype Conversion = Converted(status: ClientStatus) | Panic

  function Convert(st: Status): Conversion {
    if st.execution == UNEXECUTED then
      Converted(ClientStatus(ASSIGNED, UNEXECUTED, []))
    else if st.execution == EXECUTED then
      match st.proof
      case Some(bytes) => Converted(ClientStatus(FULFILLED, EXECUTED, bytes))
      case None => Panic
    else if st.execution == UNEXECUTABLE then
      Converted(ClientStatus(UNFULFILLABLE, UNEXECUTABLE, []))
    else
      // any unknown code reads as "unspecified"
      Converted(ClientStatus(UNSPECIFIED_FULFILLMENT, UNSPECIFIED_EXECUTION, []))
  }

  // What one status poll shows the client, given the registry's answer.
  datatype PollAnswer = Relayed(status: Option<Status>) | TimedOut | RegistryDown

  function ClientView(answer: PollAnswer): Conversion {
    match answer
    case TimedOut => Converted(Assigned)
    case RegistryDown => Converted(Lost)
    case Relayed(None) => Converted(Lost)
    case Relayed(Some(st)) => Convert(st)
  }
}

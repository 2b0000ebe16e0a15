/** The four fixed texts of the phone-to-robot protocol, shared by the client and the servers. */
module Wire {
  /** The client's connection probe. */
  const ProbeMessage: string := "Test Connection"
  /** The servers' answer to the probe. */
  const EstablishedToken: string := "Connection Established"
  /** The acknowledgement of one telemetry line. */
  const AckToken: string := "received"
  /** The start of every telemetry line. */
  const DataPrefix: string := "Data: "
}

/** The servo bus as the servo manager sees it through the Feetech SDK. The SDK itself is
    not part of this model: every request the manager puts on the bus is recorded, and the
    answers come from an oracle that may depend on everything sent so far (a servo that has
    just been given a new ID answers at the new one). */
module Bus {
  import opened Primitives

  /** The ID register of a Feetech servo (`ServoIdAddress`). */
  const ServoIdAddress: byte := 5

  /** A request on the bus: `Ping(id)` or `Write1ByteTxRx(id, address, value)`. */
  datatype Request = Ping(id: byte) | Write(id: byte, address: byte, value: byte)

  /** The two-level result of one exchange: transport success with an empty error (and,
      for a ping, the reported model number), transport success with a protocol-level
      error, or a transport failure; the strings are the SDK's `GetDescription()` texts. */
  datatype Reply =
    | Success(modelNumber: ushort)
    | ProtocolError(description: string)
    | TransportFailure(description: string)

  /** The world outside the manager, as functions of the bus traffic so far:
      the reply to the next request, whether the open port handle still reports `IsOpen`,
      and the system's current serial port list (`PortHandler.GetAvailablePorts()`). */
  datatype World = World(
    reply: (seq<Request>, Request) -> Reply,
    portOpen: seq<Request> -> bool,
    systemPorts: seq<Request> -> seq<string>)
}

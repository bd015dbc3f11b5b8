/** The server side of one WebSocket connection, reduced to what the capture
    pipeline uses: its id, whether it is open, the text messages sent on it and
    the number of times the server closed it. Messages are kept as values; their
    JSON encoding is not modelled. */
module WebSocketSessions {
  import opened Common
  import opened FingerprintResults

  const ReadyToReceive := "Ready to receive audio"
  const AnalyzingAudio := "Analyzing audio..."

  /** The text messages the backend sends. `Result` is the serialised
      FingerprintResult bean: its three properties and no "type" field. */
  datatype ServerMessage =
    | Connected(sessionId: string, message: string)
    | Ack(bytes: int, totalBytes: int)
    | Pong
    | Processing(message: string)
    | Error(message: string)
    | Result(data: ResultView)

  /** A message that ends the exchange for the client: a result or an error. */
  predicate IsTerminal(m: ServerMessage)
  {
    m.Error? || m.Result?
  }

  class WebSocketSession {
    const id: string
    var open: bool
    var outbox: seq<ServerMessage>
    var closeCount: nat

    /** A connection as the transport hands it to the handler: open, nothing sent. */
    constructor (id: string)
      ensures this.id == id && open && outbox == [] && closeCount == 0
    {
      this.id := id;
      open, outbox, closeCount := true, [], 0;
    }

    /** `sendMessage`: the transport only accepts it on an open connection; every
        caller in the pipeline checks `isOpen` first. */
    method SendMessage(m: ServerMessage)
      requires open
      modifies this
      ensures outbox == old(outbox) + [m]
      ensures open && closeCount == old(closeCount)
    {
      outbox := outbox + [m];
    }

    /** `close(CloseStatus.NORMAL)` issued by the server; callers check `isOpen` first. */
    method Close()
      requires open
      modifies this
      ensures !open && closeCount == old(closeCount) + 1
      ensures outbox == old(outbox)
    {
      open := false;
      closeCount := closeCount + 1;
    }

    /** The peer or the transport ends the connection (an external event). */
    method Drop()
      modifies this
      ensures !open
      ensures outbox == old(outbox) && closeCount == old(closeCount)
    {
      open := false;
    }
  }
}

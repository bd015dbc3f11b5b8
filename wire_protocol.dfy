/** How the backend's messages look to the client's dispatcher. The backend
    serialises every control message as a JSON object with a "type" field, but
    the result is the FingerprintResult bean as it is: an object with
    "trackName", "artist" and "confidence" and no "type". */
module WireProtocol {
  import opened Common
  import opened FingerprintResults
  import opened WebSocketSessions
  import opened RecorderService

  /** What `JSON.parse` yields for a message the backend sends. */
  function ClientView(m: ServerMessage): (i: Inbound)
    ensures i.Parsed?
    ensures i.kind.None? <==> m.Result?
    ensures i.message.Some? <==> m.Connected? || m.Processing? || m.Error?
  {
    match m
    case Connected(_, message) => Parsed(Some("connected"), Some(message))
    case Ack(_, _) => Parsed(Some("ack"), None)
    case Pong => Parsed(Some("pong"), None)
    case Processing(message) => Parsed(Some("processing"), Some(message))
    case Error(message) => Parsed(Some("error"), Some(message))
    case Result(_) => Parsed(None, None)
  }

  /** The callbacks the client calls for a stream of backend messages. */
  function ClientNotices(outbox: seq<ServerMessage>): seq<Notice>
    decreases |outbox|
  {
    if outbox == [] then []
    else Dispatch(ClientView(outbox[0])).notices + ClientNotices(outbox[1..])
  }

  /** A backend error reaches `onError` with its text and makes the client
      clean up at once. */
  lemma ErrorReachesClient(message: string)
    ensures Dispatch(ClientView(Error(message))) == Reaction([OnError(Some(message))], true, false)
  {
  }

  /** A backend result has no "type", so the client's dispatcher drops it:
      no callback, no cleanup. */
  lemma ResultIgnoredByClient(view: ResultView)
    ensures Dispatch(ClientView(Result(view))) == Reaction([], false, false)
  {
  }

  /** Exactly "connected", "processing" and "error" messages call back into
      the page; only an error cleans up. */
  lemma ClientReacts(m: ServerMessage)
    ensures Dispatch(ClientView(m)).notices != [] <==> m.Connected? || m.Processing? || m.Error?
    ensures Dispatch(ClientView(m)).cleanupNow <==> m.Error?
    ensures !Dispatch(ClientView(m)).cleanupLater
  {
  }

  /** Whatever the backend sends, the client never calls `onResult` or
      `onComplete`: a match is never shown. */
  lemma {:induction false} NoResultEverShown(outbox: seq<ServerMessage>)
    decreases |outbox|
    ensures forall n | n in ClientNotices(outbox) :: !n.OnResult? && !n.OnComplete?
  {
    if outbox != [] {
      ClientReacts(outbox[0]);
      NoResultEverShown(outbox[1..]);
    }
  }
}

/** The WebSocket handler that owns the session registry
    (backend AudioSocketConnectionHandler.java).

    `sessions` maps a connection id to its buffer; `submitted` is the queue of
    processing tasks handed to the worker pool, in submission order. Each
    handler runs as one sequential step; the pool, the concurrent map and the
    buffer's locks are not modelled. */
module ConnectionHandler {
  import opened Common
  import opened WebSocketSessions
  import opened SessionBuffers
  import opened ProcessingTask

  const InvalidMessageFormat := "Invalid message format"

  /** The `type` property of a parsed JSON object: absent or null, a string, or
      some other JSON value (which makes the `(String)` cast throw). */
  datatype TypeField = Missing | Text(value: string) | NotText

  /** An inbound text frame: not readable as a JSON object (malformed JSON,
      another JSON value, or `null`), or an object. */
  datatype TextFrame = Malformed | JsonObject(typeField: TypeField)

  /** What `handleTextMessage` does with a frame. */
  datatype Control = Done | Ping | Ignored | Invalid

  /** Dispatch on the frame's `type`: "done" and "ping" are recognised, any
      other or missing type is ignored, and a frame that does not parse or whose
      type is not a string is invalid. */
  function ControlOf(frame: TextFrame): (c: Control)
    ensures c == Done <==> frame == JsonObject(Text("done"))
    ensures c == Ping <==> frame == JsonObject(Text("ping"))
    ensures c == Invalid <==> frame.Malformed? || frame.typeField.NotText?
  {
    match frame
    case Malformed => Invalid
    case JsonObject(NotText) => Invalid
    case JsonObject(Missing) => Ignored
    case JsonObject(Text(t)) =>
      if t == "done" then Done
      else if t == "ping" then Ping
      else Ignored
  }

  /** The buffer a binary frame is appended to, before the append: the
      registered one, or a new one. */
  function BufferBefore(sessions: map<string, BufferState>, id: string): BufferState
  {
    if id in sessions then sessions[id] else NewBuffer()
  }

  class AudioSocketConnectionHandler {
    var sessions: map<string, SessionAudioBuffer>
    var submitted: seq<AudioProcessingTask>

    /** Every registered buffer is well formed and belongs to the connection
        whose id it is registered under. */
    ghost predicate Valid()
      reads this, sessions.Values
    {
      forall id | id in sessions :: sessions[id].Valid() && sessions[id].session.id == id
    }

    /** The registry as values. */
    function States(): map<string, BufferState>
      reads this, sessions.Values
    {
      map id | id in sessions :: sessions[id].State()
    }

    constructor ()
      ensures Valid() && sessions == map[] && submitted == []
    {
      sessions, submitted := map[], [];
    }

    /** `afterConnectionEstablished`: registers a new buffer under the
        connection's id (replacing any earlier one) and says "connected" if the
        connection is open. `createFile` is what creating the temp file does; if
        it throws, the exception propagates and nothing is registered. */
    method AfterConnectionEstablished(session: WebSocketSession, createFile: Io) returns (r: Outcome<Option<string>>)
      requires Valid()
      modifies this, session
      ensures Valid()
      ensures submitted == old(submitted)
      ensures createFile.Throws? ==>
        && r == Fail(createFile.message)
        && sessions == old(sessions)
        && unchanged(session)
      ensures createFile.Ok? ==>
        && r == Pass
        && session.id in sessions
        && fresh(sessions[session.id])
        && sessions == old(sessions)[session.id := sessions[session.id]]
        && sessions[session.id].State() == NewBuffer()
        && sessions[session.id].session == session
        && session.outbox == old(session.outbox)
             + (if old(session.open) then [Connected(session.id, ReadyToReceive)] else [])
        && session.open == old(session.open) && session.closeCount == old(session.closeCount)
    {
      if createFile.Throws? {
        return Fail(createFile.message);
      }
      var buffer := new SessionAudioBuffer(session);
      sessions := sessions[session.id := buffer];
      if session.open {
        session.SendMessage(Connected(session.id, ReadyToReceive));
      }
      return Pass;
    }

    /** `handleBinaryMessage`: finds the connection's buffer, creating and
        registering one if there is none, appends the frame and acknowledges it
        with the frame's length and the new total. An append on a closed buffer
        throws and sends no acknowledgement. */
    method HandleBinaryMessage(session: WebSocketSession, payload: seq<Byte>, createFile: Io)
      returns (r: Outcome<Option<string>>)
      requires Valid()
      modifies this, session, if session.id in sessions then {sessions[session.id]} else {}
      ensures Valid()
      ensures submitted == old(submitted)
      ensures session.open == old(session.open) && session.closeCount == old(session.closeCount)
      ensures session.id in old(sessions) ==> sessions == old(sessions)
      ensures session.id !in old(sessions) && createFile.Throws? ==>
        && r == Fail(createFile.message)
        && sessions == old(sessions)
        && session.outbox == old(session.outbox)
      ensures session.id in old(sessions) || createFile.Ok? ==>
        && session.id in sessions
        && (session.id !in old(sessions) ==>
              && fresh(sessions[session.id])
              && sessions == old(sessions)[session.id := sessions[session.id]])
        && var before := BufferBefore(old(States()), session.id);
           match AppendStep(before, payload)
           case Success(after) =>
             && r == Pass
             && sessions[session.id].State() == after
             && session.outbox == old(session.outbox)
                  + (if session.open then [Ack(|payload|, after.totalBytesWritten)] else [])
           case Failure(e) =>
             && r == Fail(Some(e))
             && sessions[session.id].State() == before
             && session.outbox == old(session.outbox)
    {
      var buffer: SessionAudioBuffer;
      if session.id in sessions {
        buffer := sessions[session.id];
      } else {
        if createFile.Throws? {
          return Fail(createFile.message);
        }
        buffer := new SessionAudioBuffer(session);
        sessions := sessions[session.id := buffer];
      }
      var bytesReceived := |payload|;
      var appended := buffer.Append(payload);
      if appended.Fail? {
        return Fail(Some(appended.error));
      }
      if session.open {
        session.SendMessage(Ack(bytesReceived, buffer.GetTotalBytes()));
      }
      return Pass;
    }

    /** `handleTextMessage`: "done" completes the recording, "ping" is answered
        with one pong on an open connection, other types change nothing, and a
        frame that cannot be read is answered with "Invalid message format".
        The registry itself is never changed. */
    method HandleTextMessage(session: WebSocketSession, frame: TextFrame)
      requires Valid()
      modifies this, session
      ensures Valid()
      ensures sessions == old(sessions)
      ensures session.open == old(session.open) && session.closeCount == old(session.closeCount)
      ensures match ControlOf(frame)
        case Done =>
          if session.id in sessions then
            && |submitted| == |old(submitted)| + 1
            && submitted[..|old(submitted)|] == old(submitted)
            && fresh(submitted[|old(submitted)|])
            && submitted[|old(submitted)|].buffer == sessions[session.id]
            && session.outbox == old(session.outbox) + (if session.open then [Processing(AnalyzingAudio)] else [])
          else
            && submitted == old(submitted)
            && session.outbox == old(session.outbox) + (if session.open then [Error(NoAudioData)] else [])
        case Ping =>
          && submitted == old(submitted)
          && session.outbox == old(session.outbox) + (if session.open then [Pong] else [])
        case Ignored =>
          && submitted == old(submitted)
          && session.outbox == old(session.outbox)
        case Invalid =>
          && submitted == old(submitted)
          && session.outbox == old(session.outbox) + (if session.open then [Error(InvalidMessageFormat)] else [])
    {
      match ControlOf(frame)
      case Done =>
        HandleRecordingComplete(session);
      case Ping =>
        if session.open {
          session.SendMessage(Pong);
        }
      case Ignored =>
      case Invalid =>
        SendError(session, InvalidMessageFormat);
    }

    /** `handleRecordingComplete`: without a buffer, "No audio data received"
        and no task; otherwise "processing" (if open) and exactly one task
        submitted for the buffer. The entry stays registered. */
    method HandleRecordingComplete(session: WebSocketSession)
      requires Valid()
      modifies this, session
      ensures Valid()
      ensures sessions == old(sessions)
      ensures session.open == old(session.open) && session.closeCount == old(session.closeCount)
      ensures session.id !in sessions ==>
        && submitted == old(submitted)
        && session.outbox == old(session.outbox) + (if session.open then [Error(NoAudioData)] else [])
      ensures session.id in sessions ==>
        && |submitted| == |old(submitted)| + 1
        && submitted[..|old(submitted)|] == old(submitted)
        && fresh(submitted[|old(submitted)|])
        && submitted[|old(submitted)|].buffer == sessions[session.id]
        && session.outbox == old(session.outbox) + (if session.open then [Processing(AnalyzingAudio)] else [])
    {
      if session.id !in sessions {
        SendError(session, NoAudioData);
        return;
      }
      var buffer := sessions[session.id];
      if session.open {
        session.SendMessage(Processing(AnalyzingAudio));
      }
      var task := new AudioProcessingTask(buffer);
      submitted := submitted + [task];
    }

    /** `sendError`: an error message, only while the connection is open. */
    method SendError(session: WebSocketSession, message: string)
      modifies session
      ensures session.outbox == old(session.outbox) + (if old(session.open) then [Error(message)] else [])
      ensures session.open == old(session.open) && session.closeCount == old(session.closeCount)
    {
      if session.open {
        session.SendMessage(Error(message));
      }
    }

    /** `afterConnectionClosed`: removes the entry and tears its buffer down
        (`closeFails` is what closing its stream does, `deleteFails` whether
        deleting its temp file returned false); all other entries stay
        as they were. */
    method AfterConnectionClosed(session: WebSocketSession, closeFails: bool, deleteFails: bool)
      requires Valid()
      modifies this, if session.id in sessions then {sessions[session.id]} else {}
      ensures Valid()
      ensures sessions == old(sessions) - {session.id}
      ensures submitted == old(submitted)
      ensures session.id in old(sessions) ==>
        old(sessions)[session.id].State() == CloseSilentlyStep(old(sessions[session.id].State()), closeFails, deleteFails)
    {
      RemoveAndDiscard(session.id, closeFails, deleteFails);
    }

    /** `handleTransportError`: the same teardown as a close. */
    method HandleTransportError(session: WebSocketSession, closeFails: bool, deleteFails: bool)
      requires Valid()
      modifies this, if session.id in sessions then {sessions[session.id]} else {}
      ensures Valid()
      ensures sessions == old(sessions) - {session.id}
      ensures submitted == old(submitted)
      ensures session.id in old(sessions) ==>
        old(sessions)[session.id].State() == CloseSilentlyStep(old(sessions[session.id].State()), closeFails, deleteFails)
    {
      RemoveAndDiscard(session.id, closeFails, deleteFails);
    }

    /** `sessions.remove(id)` followed by `closeSilently()` on what was removed. */
    method RemoveAndDiscard(id: string, closeFails: bool, deleteFails: bool)
      requires Valid()
      modifies this, if id in sessions then {sessions[id]} else {}
      ensures Valid()
      ensures sessions == old(sessions) - {id}
      ensures submitted == old(submitted)
      ensures id in old(sessions) ==>
        old(sessions)[id].State() == CloseSilentlyStep(old(sessions[id].State()), closeFails, deleteFails)
    {
      if id in sessions {
        var buffer := sessions[id];
        sessions := sessions - {id};
        buffer.CloseSilently(closeFails, deleteFails);
      }
    }
  }
}

/** Whole sessions driven through the handler and the processing task, one
    event after another, as the transport and the worker pool would deliver
    them. Each method's postcondition is what the sequence is proved to end in. */
module Scenarios {
  import opened Common
  import opened FingerprintResults
  import opened WebSocketSessions
  import opened SessionBuffers
  import opened ProcessingTask
  import opened ConnectionHandler

  const Done := JsonObject(Text("done"))

  /** "done" submits a task but leaves the entry registered, so the buffer is
      torn down twice: by the task's cleanup and, once the task has closed the
      connection, by `afterConnectionClosed`. The second teardown changes
      nothing the task left behind (the stream is already closed and the file
      already gone), and the client gets "processing" and exactly one reply. */
  method DoneThenRunThenClose(h: AudioSocketConnectionHandler, session: WebSocketSession,
                              env: TaskEnvironment, matcher: MatchOutcome, closeFails: bool, deleteFails: bool)
    returns (trace: seq<Step>)
    requires h.Valid() && session.id in h.sessions && h.sessions[session.id].session == session
    modifies h, session, h.sessions[session.id]
    ensures h.Valid()
    ensures h.sessions == old(h.sessions) - {session.id}
    ensures |h.submitted| == |old(h.submitted)| + 1
    ensures trace == Ladder(old(session.open), old(h.sessions[session.id].State()), env, ViewOf(matcher))
    ensures var buffer := old(h.sessions[session.id]);
      && !buffer.fileExists
      && buffer.State().Written() == old(buffer.State().Written())
      && (CloseForProcessingStep(old(buffer.State()), env.finalize).Success? ==>
            buffer.State() == AfterRun(old(buffer.State()), env))
    ensures session.outbox == old(session.outbox)
      + (if old(session.open)
         then [Processing(AnalyzingAudio), Terminal(old(h.sessions[session.id].State()), env, ViewOf(matcher))]
         else [])
    ensures !session.open
    ensures session.closeCount == old(session.closeCount) + (if old(session.open) then 1 else 0)
  {
    var buffer := h.sessions[session.id];
    h.HandleTextMessage(session, Done);
    var task := h.submitted[|h.submitted| - 1];
    trace := task.Run(env, matcher);
    assert h.Valid();
    h.AfterConnectionClosed(session, closeFails, deleteFails);
  }

  /** The connection drops before "done": no task is ever submitted, nothing
      is computed or sent beyond the acknowledgement, and the close path
      deletes the temp file unless `File.delete()` returns false. */
  method DropBeforeDone(payload: seq<Byte>, deleteFails: bool)
    returns (h: AudioSocketConnectionHandler, session: WebSocketSession, buffer: SessionAudioBuffer)
    ensures h.sessions == map[] && h.submitted == []
    ensures session.outbox == [Connected(session.id, ReadyToReceive), Ack(|payload|, |payload|)]
    ensures session.closeCount == 0
    ensures buffer.State().Written() == payload && buffer.closed && buffer.fileExists == deleteFails
  {
    h := new AudioSocketConnectionHandler();
    session := new WebSocketSession("session-c");
    var established := h.AfterConnectionEstablished(session, Ok);
    buffer := h.sessions[session.id];
    var appended := h.HandleBinaryMessage(session, payload, Ok);
    session.Drop();
    h.AfterConnectionClosed(session, false, deleteFails);
  }

  /** "done" with no frames: the task reports "No audio data received" and
      closes the connection, without decoding anything. */
  method DoneWithoutAudio(env: TaskEnvironment, matcher: MatchOutcome)
    returns (session: WebSocketSession, trace: seq<Step>)
    requires env.finalize.Ok?
    ensures Decode !in trace && Match !in trace
    ensures session.outbox == [Connected(session.id, ReadyToReceive), Processing(AnalyzingAudio), Error(NoAudioData)]
    ensures !session.open && session.closeCount == 1
  {
    var h := new AudioSocketConnectionHandler();
    session := new WebSocketSession("session-b");
    var established := h.AfterConnectionEstablished(session, Ok);
    h.HandleTextMessage(session, Done);
    var task := h.submitted[0];
    trace := task.Run(env, matcher);
  }

  /** A binary frame on an open connection whose buffer is registered and
      still open: the buffer grows by the frame and the frame is acknowledged
      with the new total. */
  method Feed(h: AudioSocketConnectionHandler, session: WebSocketSession, chunk: seq<Byte>)
    requires h.Valid() && session.id in h.sessions && h.sessions[session.id].session == session
    requires session.open && !h.sessions[session.id].closed
    modifies h, session, h.sessions[session.id]
    ensures h.Valid() && h.sessions == old(h.sessions) && h.submitted == old(h.submitted)
    ensures var buffer := h.sessions[session.id];
      && buffer.totalBytesWritten == old(buffer.totalBytesWritten) + |chunk|
      && !buffer.closed && buffer.fileExists == old(buffer.fileExists)
      && session.outbox == old(session.outbox) + [Ack(|chunk|, buffer.totalBytesWritten)]
    ensures session.open && session.closeCount == old(session.closeCount)
  {
    assert h.States()[session.id] == h.sessions[session.id].State();
    var r := h.HandleBinaryMessage(session, chunk, Ok);
  }

  /** "done" on a connection whose buffer is registered: the task submitted
      for it, and "processing" if the connection is open. */
  method SubmitDone(h: AudioSocketConnectionHandler, session: WebSocketSession) returns (task: AudioProcessingTask)
    requires h.Valid() && session.id in h.sessions && h.sessions[session.id].session == session
    modifies h, session
    ensures h.Valid() && h.sessions == old(h.sessions)
    ensures task.buffer == h.sessions[session.id] && task.buffer.session == session
    ensures session.outbox == old(session.outbox) + (if session.open then [Processing(AnalyzingAudio)] else [])
    ensures session.open == old(session.open) && session.closeCount == old(session.closeCount)
  {
    h.HandleTextMessage(session, Done);
    task := h.submitted[|h.submitted| - 1];
  }

  /** A new connection that streams three frames: each is acknowledged with
      the running total, and the buffer stays open holding all of them. */
  method ConnectAndStream(a: seq<Byte>, b: seq<Byte>, c: seq<Byte>)
    returns (h: AudioSocketConnectionHandler, session: WebSocketSession)
    ensures fresh(h) && fresh(session) && h.Valid()
    ensures session.id in h.sessions && h.sessions[session.id].session == session
    ensures var buffer := h.sessions[session.id];
      buffer.totalBytesWritten == |a| + |b| + |c| && !buffer.closed && buffer.fileExists
    ensures session.outbox == [
      Connected(session.id, ReadyToReceive),
      Ack(|a|, |a|), Ack(|b|, |a| + |b|), Ack(|c|, |a| + |b| + |c|)]
    ensures session.open && session.closeCount == 0
  {
    h := new AudioSocketConnectionHandler();
    session := new WebSocketSession("session-a");
    var r := h.AfterConnectionEstablished(session, Ok);
    Feed(h, session, a);
    Feed(h, session, b);
    Feed(h, session, c);
  }

  /** Three frames, "done", a successful decode and a match: the client gets
      one acknowledgement per frame with the running total, "processing", the
      result, and the connection is closed once; the raw size read by the task
      is the total of the three frames. */
  method ThreeFramesAndMatch(a: seq<Byte>, b: seq<Byte>, c: seq<Byte>, decode: DecodeRun, result: FingerprintResult)
    returns (session: WebSocketSession, trace: seq<Step>)
    requires |a| + |b| + |c| > 0
    requires DecodeSucceeded(decode)
    ensures session.outbox == [
      Connected(session.id, ReadyToReceive),
      Ack(|a|, |a|), Ack(|b|, |a| + |b|), Ack(|c|, |a| + |b| + |c|),
      Processing(AnalyzingAudio),
      Result(result.View())]
    ensures trace == [FinalizeBuffer, ReadRawSize(|a| + |b| + |c|), CreateWav, Decode, Match,
                      Deliver(Result(result.View())), CloseSocket, DeleteRaw, DeleteWav]
    ensures !session.open && session.closeCount == 1
  {
    var h;
    h, session := ConnectAndStream(a, b, c);
    var task := SubmitDone(h, session);
    var before := task.buffer.State();
    var env := TaskEnvironment(Ok, Ok, decode);
    assert Work(before, env) == [FinalizeBuffer, ReadRawSize(|a| + |b| + |c|), CreateWav, Decode, Match];
    trace := task.Run(env, Matched(result));
  }

  /** "done", then the connection drops and is closed before any worker runs
      the task: the task's buffer has been torn down, and its file is gone
      unless the delete failed. */
  method DoneThenDrop(h: AudioSocketConnectionHandler, session: WebSocketSession, deleteFails: bool)
    returns (task: AudioProcessingTask)
    requires h.Valid() && session.id in h.sessions && h.sessions[session.id].session == session
    modifies h, session, h.sessions[session.id]
    ensures task.buffer == old(h.sessions[session.id]) && task.buffer.session == session
    ensures task.buffer.Valid() && task.buffer.closed
    ensures task.buffer.fileExists == (old(h.sessions[session.id].fileExists) && deleteFails)
    ensures task.buffer.totalBytesWritten == old(h.sessions[session.id].totalBytesWritten)
    ensures !session.open
    ensures session.outbox == old(session.outbox) + (if old(session.open) then [Processing(AnalyzingAudio)] else [])
    ensures session.closeCount == old(session.closeCount)
  {
    task := SubmitDone(h, session);
    session.Drop();
    h.AfterConnectionClosed(session, false, deleteFails);
  }

  /** The connection drops after "done" but before the worker picks the task
      up. When the close path deleted the raw file, the task finalises, reads
      size 0 and deletes the raw file: it decodes nothing. When that delete
      failed, the task reads every byte the client sent. Either way it sends
      and closes nothing, since the connection is gone. */
  method DropBetweenDoneAndRun(h: AudioSocketConnectionHandler, session: WebSocketSession,
                               env: TaskEnvironment, matcher: MatchOutcome, deleteFails: bool)
    returns (trace: seq<Step>)
    requires h.Valid() && session.id in h.sessions && h.sessions[session.id].session == session
    modifies h, session, h.sessions[session.id]
    ensures !deleteFails ==> trace == [FinalizeBuffer, ReadRawSize(0), DeleteRaw]
    ensures deleteFails && old(h.sessions[session.id].fileExists) ==>
      |trace| >= 2 && trace[..2] == [FinalizeBuffer, ReadRawSize(old(h.sessions[session.id].totalBytesWritten))]
    ensures forall i | 0 <= i < |trace| :: !trace[i].Deliver? && trace[i] != CloseSocket
    ensures session.outbox == old(session.outbox) + (if old(session.open) then [Processing(AnalyzingAudio)] else [])
    ensures session.closeCount == old(session.closeCount)
  {
    var task := DoneThenDrop(h, session, deleteFails);
    var before := task.buffer.State();
    if !deleteFails {
      assert Ladder(false, before, env, ViewOf(matcher)) == [FinalizeBuffer, ReadRawSize(0), DeleteRaw];
    }
    trace := task.Run(env, matcher);
  }

  /** "done" twice on one connection: nothing stops the second, so two tasks
      are submitted on the same buffer and the client is told "processing"
      twice. The first run replies and closes the connection; when its
      finalisation succeeded, the second run finds the file deleted, reads size
      0 and only deletes the raw file again. */
  method DoneTwiceThenRunBoth(h: AudioSocketConnectionHandler, session: WebSocketSession,
                              env: TaskEnvironment, matcher: MatchOutcome,
                              env2: TaskEnvironment, matcher2: MatchOutcome)
    returns (first: seq<Step>, second: seq<Step>)
    requires h.Valid() && session.id in h.sessions && h.sessions[session.id].session == session
    modifies h, session, h.sessions[session.id]
    ensures |h.submitted| == |old(h.submitted)| + 2
    ensures var n := |h.submitted|;
      h.submitted[n - 2] != h.submitted[n - 1] && h.submitted[n - 2].buffer == h.submitted[n - 1].buffer
    ensures first == Ladder(old(session.open), old(h.sessions[session.id].State()), env, ViewOf(matcher))
    ensures forall i | 0 <= i < |second| :: !second[i].Deliver? && second[i] != CloseSocket
    ensures CloseForProcessingStep(old(h.sessions[session.id].State()), env.finalize).Success? ==>
      second == [FinalizeBuffer, ReadRawSize(0), DeleteRaw]
    ensures session.outbox == old(session.outbox)
      + (if old(session.open)
         then [Processing(AnalyzingAudio), Processing(AnalyzingAudio),
               Terminal(old(h.sessions[session.id].State()), env, ViewOf(matcher))]
         else [])
    ensures !session.open
    ensures session.closeCount == old(session.closeCount) + (if old(session.open) then 1 else 0)
  {
    var buffer := h.sessions[session.id];
    h.HandleTextMessage(session, Done);
    h.HandleTextMessage(session, Done);
    var n := |h.submitted|;
    var one, two := h.submitted[n - 2], h.submitted[n - 1];
    first := one.Run(env, matcher);
    second := two.Run(env2, matcher2);
  }
}

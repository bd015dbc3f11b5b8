/** The background job that turns a finished recording into one reply
    (backend AudioProcessingTask.java).

    `run` finalises the buffer, reads the raw file's size, creates a WAV temp
    file, runs the decoder, calls the fingerprint service and sends one result
    or error before closing the connection; a `finally` block deletes the raw
    and WAV files. The decoder process and the fingerprint service are oracles:
    the caller says how they end. A run is recorded as a trace of `Step`s. */
module ProcessingTask {
  import opened Common
  import opened FingerprintResults
  import opened WebSocketSessions
  import opened SessionBuffers

  const NoAudioData := "No audio data received"
  const DecodingFailed := "Audio decoding failed"
  const ProcessingErrorPrefix := "Audio processing error: "

  /** The text of the error sent when `run` catches an exception. */
  function ProcessingError(message: Option<string>): string
  {
    ProcessingErrorPrefix + MessageText(message)
  }

  /** How one local ffmpeg run ended: the process exited with a code, leaving
      the output file present or not and of some length; or launching or
      waiting for it threw (IOException, InterruptedException). */
  datatype DecodeRun = Exited(exitCode: int, outputExists: bool, outputLength: nat) | Raised

  /** The success criterion of `decodeWithLocalFFmpeg`: a zero exit code and a
      non-empty output file; a failed launch counts as failure. */
  function DecodeSucceeded(run: DecodeRun): (ok: bool)
    ensures ok <==> run.Exited? && run.exitCode == 0 && run.outputExists && run.outputLength > 0
  {
    match run
    case Raised => false
    case Exited(code, present, length) =>
      if code != 0 then false
      else if !present || length == 0 then false
      else true
  }

  /** What the fingerprint service did: returned a result bean, or threw. */
  datatype MatchOutcome = Matched(result: FingerprintResult) | MatchThrew(message: Option<string>)

  /** The same, with the bean replaced by what its getters return. */
  datatype MatchView = Returned(view: ResultView) | Threw(message: Option<string>)

  function ViewOf(m: MatchOutcome): MatchView
    reads if m.Matched? then {m.result} else {}
  {
    match m
    case Matched(r) => Returned(r.View())
    case MatchThrew(e) => Threw(e)
  }

  /** How the file-system steps of one run behave: the flush in
      `closeForProcessing` and the creation of the WAV temp file. */
  datatype TaskEnvironment = TaskEnvironment(finalize: Io, createWav: Io, decode: DecodeRun)

  /** One observable action of a run. */
  datatype Step =
    | FinalizeBuffer
    | ReadRawSize(size: nat)
    | CreateWav
    | Decode
    | Match
    | Deliver(message: ServerMessage)
    | CloseSocket
    | DeleteRaw
    | DeleteWav

  /** The steps of a run before anything is sent: how far the ladder of early
      returns gets. */
  function Work(s: BufferState, env: TaskEnvironment): (steps: seq<Step>)
    ensures |steps| > 0 && steps[0] == FinalizeBuffer
    ensures forall i | 0 <= i < |steps| :: !steps[i].Deliver? && steps[i] != CloseSocket
  {
    match CloseForProcessingStep(s, env.finalize)
    case Failure(_) => [FinalizeBuffer]
    case Success(f) =>
      var size := f.FileLength();
      if size == 0 || env.createWav.Throws? then [FinalizeBuffer, ReadRawSize(size)]
      else if !DecodeSucceeded(env.decode) then [FinalizeBuffer, ReadRawSize(size), CreateWav, Decode]
      else [FinalizeBuffer, ReadRawSize(size), CreateWav, Decode, Match]
  }

  /** The one message a run sends, if the connection is open. */
  function Terminal(s: BufferState, env: TaskEnvironment, matched: MatchView): (m: ServerMessage)
    ensures IsTerminal(m)
  {
    match CloseForProcessingStep(s, env.finalize)
    case Failure(e) => Error(ProcessingError(e))
    case Success(f) =>
      if f.FileLength() == 0 then Error(NoAudioData)
      else if env.createWav.Throws? then Error(ProcessingError(env.createWav.message))
      else if !DecodeSucceeded(env.decode) then Error(DecodingFailed)
      else
        match matched
        case Threw(e) => Error(ProcessingError(e))
        case Returned(v) => Result(v)
  }

  /** Whether the run got as far as creating the WAV temp file. */
  function WavCreated(s: BufferState, env: TaskEnvironment): bool
  {
    match CloseForProcessingStep(s, env.finalize)
    case Failure(_) => false
    case Success(f) => f.FileLength() != 0 && env.createWav.Ok?
  }

  /** Sending a message and closing, both only while the connection is open. */
  function Finish(open: bool, m: ServerMessage): seq<Step>
  {
    if open then [Deliver(m), CloseSocket] else []
  }

  /** The `finally` block: the raw file always, the WAV file when it was created. */
  function Cleanup(wavCreated: bool): (steps: seq<Step>)
    ensures forall i | 0 <= i < |steps| :: !steps[i].Deliver? && steps[i] != CloseSocket
  {
    [DeleteRaw] + (if wavCreated then [DeleteWav] else [])
  }

  /** The whole trace of a run on a connection that is `open` at its start. */
  function Ladder(open: bool, s: BufferState, env: TaskEnvironment, matched: MatchView): seq<Step>
  {
    Work(s, env) + Finish(open, Terminal(s, env, matched)) + Cleanup(WavCreated(s, env))
  }

  /** The buffer's state after a run: finalised unless the flush threw, and its
      temp file deleted. */
  function AfterRun(s: BufferState, env: TaskEnvironment): BufferState
  {
    Finalized(s, env).(fileExists := false)
  }

  /** The buffer's state after `closeForProcessing`: unchanged if the flush threw. */
  function Finalized(s: BufferState, env: TaskEnvironment): BufferState
  {
    match CloseForProcessingStep(s, env.finalize)
    case Failure(_) => s
    case Success(f) => f
  }

  /** The messages a trace sends, in order. */
  function Delivered(steps: seq<Step>): seq<ServerMessage>
  {
    if steps == [] then []
    else (if steps[0].Deliver? then [steps[0].message] else []) + Delivered(steps[1..])
  }

  lemma {:induction false} DeliveredConcat(a: seq<Step>, b: seq<Step>)
    ensures Delivered(a + b) == Delivered(a) + Delivered(b)
  {
    if a == [] {
      assert a + b == b;
    } else {
      assert (a + b)[0] == a[0];
      assert (a + b)[1..] == a[1..] + b;
      DeliveredConcat(a[1..], b);
    }
  }

  /** A trace without `Deliver` steps sends nothing. */
  lemma {:induction false} NothingDelivered(steps: seq<Step>)
    requires forall i | 0 <= i < |steps| :: !steps[i].Deliver?
    ensures Delivered(steps) == []
  {
    if steps != [] {
      NothingDelivered(steps[1..]);
    }
  }

  /** A trace made of steps that send and close nothing, then `Finish`, then
      more such steps, sends exactly the one message and closes once, both
      only when the connection is open. */
  lemma {:induction false} OneDeliveryBetween(w: seq<Step>, open: bool, m: ServerMessage, c: seq<Step>)
    requires forall i | 0 <= i < |w| :: !w[i].Deliver? && w[i] != CloseSocket
    requires forall i | 0 <= i < |c| :: !c[i].Deliver? && c[i] != CloseSocket
    ensures Delivered(w + Finish(open, m) + c) == (if open then [m] else [])
    ensures multiset(w + Finish(open, m) + c)[CloseSocket] == (if open then 1 else 0)
  {
    var f := Finish(open, m);
    DeliveredConcat(w + f, c);
    DeliveredConcat(w, f);
    NothingDelivered(w);
    NothingDelivered(c);
    if open {
      assert f[1..] == [CloseSocket];
      NothingDelivered(f[1..]);
    }
    assert CloseSocket !in w && CloseSocket !in c;
    assert multiset(w + f + c) == multiset(w) + multiset(f) + multiset(c);
  }

  /** At most one message and one close per run, both only on an open
      connection, and the message is a result or an error. */
  lemma OneTerminalOutcome(open: bool, s: BufferState, env: TaskEnvironment, matched: MatchView)
    ensures var steps := Ladder(open, s, env, matched);
      && Delivered(steps) == (if open then [Terminal(s, env, matched)] else [])
      && multiset(steps)[CloseSocket] == (if open then 1 else 0)
      && forall m | m in Delivered(steps) :: IsTerminal(m)
  {
    OneDeliveryBetween(Work(s, env), open, Terminal(s, env, matched), Cleanup(WavCreated(s, env)));
  }

  /** The buffer is finalised before the raw size is read, and the `finally`
      cleanup comes last on every path: the raw file always, the WAV file
      exactly when it was created. */
  lemma FinalizeFirstCleanupLast(open: bool, s: BufferState, env: TaskEnvironment, matched: MatchView)
    ensures var steps := Ladder(open, s, env, matched);
      && steps[0] == FinalizeBuffer
      && (forall i | 0 <= i < |steps| && steps[i].ReadRawSize? :: i == 1)
      && DeleteRaw in steps
      && (steps[|steps| - 1] == DeleteRaw || steps[|steps| - 1] == DeleteWav)
      && (DeleteWav in steps <==> CreateWav in steps)
  {
  }

  /** An empty raw file yields "No audio data received", and neither the
      decoder nor the fingerprint service is called. */
  lemma EmptyInputSkipsDecode(open: bool, s: BufferState, env: TaskEnvironment, matched: MatchView)
    requires CloseForProcessingStep(s, env.finalize).Success?
    requires CloseForProcessingStep(s, env.finalize).value.FileLength() == 0
    ensures var steps := Ladder(open, s, env, matched);
      && Decode !in steps && Match !in steps && CreateWav !in steps
      && Terminal(s, env, matched) == Error(NoAudioData)
  {
  }

  /** A failed decode yields "Audio decoding failed", the fingerprint service
      is not called, and the WAV file is still deleted. */
  lemma DecodeFailureSkipsMatch(open: bool, s: BufferState, env: TaskEnvironment, matched: MatchView)
    requires !DecodeSucceeded(env.decode)
    ensures var steps := Ladder(open, s, env, matched);
      && Match !in steps
      && (Decode in steps ==> Terminal(s, env, matched) == Error(DecodingFailed) && DeleteWav in steps)
  {
  }

  /** The fingerprint service is only called after a successful decode of a
      non-empty raw file, and a result is only sent when it returned one. */
  lemma MatchOnlyAfterDecode(open: bool, s: BufferState, env: TaskEnvironment, matched: MatchView)
    ensures var steps := Ladder(open, s, env, matched);
      && (Match in steps ==> DecodeSucceeded(env.decode) && Decode in steps)
      && (Terminal(s, env, matched).Result? <==> Match in steps && matched.Returned?)
      && (Terminal(s, env, matched).Result? ==> Terminal(s, env, matched).data == matched.view)
  {
  }

  /** Every exception caught by `run` is reported as "Audio processing error: "
      followed by its message: one thrown by the flush in `closeForProcessing`,
      by the creation of the WAV temp file or by the fingerprint service. The
      steps after the one that threw are skipped, and the connection is still
      closed. */
  lemma ExceptionsReported(open: bool, s: BufferState, env: TaskEnvironment, matched: MatchView)
    ensures !s.closed && env.finalize.Throws? ==>
      && Terminal(s, env, matched) == Error(ProcessingErrorPrefix + MessageText(env.finalize.message))
      && Ladder(open, s, env, matched) == [FinalizeBuffer] + Finish(open, Terminal(s, env, matched)) + [DeleteRaw]
    ensures var f := CloseForProcessingStep(s, env.finalize);
      f.Success? && f.value.FileLength() > 0 && env.createWav.Throws? ==>
      && Terminal(s, env, matched) == Error(ProcessingErrorPrefix + MessageText(env.createWav.message))
      && CreateWav !in Ladder(open, s, env, matched) && Decode !in Ladder(open, s, env, matched)
    ensures var f := CloseForProcessingStep(s, env.finalize);
      f.Success? && f.value.FileLength() > 0 && env.createWav.Ok? && DecodeSucceeded(env.decode) && matched.Threw? ==>
      && Terminal(s, env, matched) == Error(ProcessingErrorPrefix + MessageText(matched.message))
      && Match in Ladder(open, s, env, matched)
    ensures open && Terminal(s, env, matched).Error? ==> CloseSocket in Ladder(open, s, env, matched)
  {
  }

  /** If the temp file was deleted before the run (the connection was closed
      first), the run reports empty input and decodes nothing. */
  lemma DeletedFileReadsAsEmpty(open: bool, s: BufferState, env: TaskEnvironment, matched: MatchView)
    requires !s.fileExists
    ensures CloseForProcessingStep(s, env.finalize).Success? ==>
      Terminal(s, env, matched) == Error(NoAudioData) && Decode !in Ladder(open, s, env, matched)
  {
  }

  class AudioProcessingTask {
    const buffer: SessionAudioBuffer

    constructor (buffer: SessionAudioBuffer)
      ensures this.buffer == buffer
    {
      this.buffer := buffer;
    }

    /** `sendErrorToClient`: only while the connection is open. */
    method SendErrorToClient(message: string) returns (steps: seq<Step>)
      modifies buffer.session
      ensures steps == if old(buffer.session.open) then [Deliver(Error(message))] else []
      ensures buffer.session.outbox == old(buffer.session.outbox) + (if old(buffer.session.open) then [Error(message)] else [])
      ensures buffer.session.open == old(buffer.session.open)
      ensures buffer.session.closeCount == old(buffer.session.closeCount)
    {
      steps := [];
      if buffer.session.open {
        buffer.session.SendMessage(Error(message));
        steps := [Deliver(Error(message))];
      }
    }

    /** `sendResultToClient`: only while the connection is open. */
    method SendResultToClient(view: ResultView) returns (steps: seq<Step>)
      modifies buffer.session
      ensures steps == if old(buffer.session.open) then [Deliver(Result(view))] else []
      ensures buffer.session.outbox == old(buffer.session.outbox) + (if old(buffer.session.open) then [Result(view)] else [])
      ensures buffer.session.open == old(buffer.session.open)
      ensures buffer.session.closeCount == old(buffer.session.closeCount)
    {
      steps := [];
      if buffer.session.open {
        buffer.session.SendMessage(Result(view));
        steps := [Deliver(Result(view))];
      }
    }

    /** `closeSession`: closes with a normal status, only while open. */
    method CloseSession() returns (steps: seq<Step>)
      modifies buffer.session
      ensures steps == if old(buffer.session.open) then [CloseSocket] else []
      ensures !buffer.session.open
      ensures buffer.session.closeCount == old(buffer.session.closeCount) + (if old(buffer.session.open) then 1 else 0)
      ensures buffer.session.outbox == old(buffer.session.outbox)
    {
      steps := [];
      if buffer.session.open {
        buffer.session.Close();
        steps := [CloseSocket];
      }
    }

    /** The `try` block of `run()`, following the source's early returns. It
        returns the steps taken, the exception a step threw (nothing has been
        sent or closed then) and whether the WAV file was created. */
    method TryBlock(env: TaskEnvironment, matched: MatchView)
      returns (steps: seq<Step>, thrown: Option<Option<string>>, wavCreated: bool)
      requires buffer.Valid()
      modifies buffer, buffer.session
      ensures buffer.Valid()
      ensures buffer.State() == Finalized(old(buffer.State()), env)
      ensures wavCreated == WavCreated(old(buffer.State()), env)
      ensures thrown.Some? ==>
        && steps == Work(old(buffer.State()), env)
        && Terminal(old(buffer.State()), env, matched) == Error(ProcessingError(thrown.value))
        && buffer.session.outbox == old(buffer.session.outbox)
        && buffer.session.open == old(buffer.session.open)
        && buffer.session.closeCount == old(buffer.session.closeCount)
      ensures thrown.None? ==>
        && steps == Work(old(buffer.State()), env) + Finish(old(buffer.session.open), Terminal(old(buffer.State()), env, matched))
        && buffer.session.outbox == old(buffer.session.outbox)
             + (if old(buffer.session.open) then [Terminal(old(buffer.State()), env, matched)] else [])
        && !buffer.session.open
        && buffer.session.closeCount == old(buffer.session.closeCount) + (if old(buffer.session.open) then 1 else 0)
    {
      var sent, closed;
      wavCreated, thrown := false, None;
      steps := [FinalizeBuffer];
      var finalized := buffer.CloseForProcessing(env.finalize);
      if finalized.Fail? {
        thrown := Some(finalized.error);
        return;
      }
      var fileSize := buffer.TempFileLength();
      steps := steps + [ReadRawSize(fileSize)];
      if fileSize == 0 {
        sent := SendErrorToClient(NoAudioData);
        closed := CloseSession();
        steps := steps + sent + closed;
        return;
      }
      if env.createWav.Throws? {
        thrown := Some(env.createWav.message);
        return;
      }
      wavCreated := true;
      steps := steps + [CreateWav, Decode];
      var success := DecodeSucceeded(env.decode);
      if !success {
        sent := SendErrorToClient(DecodingFailed);
        closed := CloseSession();
        steps := steps + sent + closed;
        return;
      }
      steps := steps + [Match];
      match matched
      case Threw(e) =>
        thrown := Some(e);
      case Returned(view) =>
        sent := SendResultToClient(view);
        closed := CloseSession();
        steps := steps + sent + closed;
    }

    /** `run()`: the `try` block, the `catch` block that reports an exception,
        and the `finally` cleanup, which runs on every path. */
    method Run(env: TaskEnvironment, matcher: MatchOutcome) returns (trace: seq<Step>)
      requires buffer.Valid()
      modifies buffer, buffer.session
      ensures buffer.Valid()
      ensures trace == Ladder(old(buffer.session.open), old(buffer.State()), env, ViewOf(matcher))
      ensures buffer.State() == AfterRun(old(buffer.State()), env)
      ensures buffer.session.outbox == old(buffer.session.outbox)
        + (if old(buffer.session.open) then [Terminal(old(buffer.State()), env, ViewOf(matcher))] else [])
      ensures !buffer.session.open
      ensures buffer.session.closeCount == old(buffer.session.closeCount) + (if old(buffer.session.open) then 1 else 0)
    {
      var view := ViewOf(matcher);
      ghost var start, open := buffer.State(), buffer.session.open;
      var thrown, wavCreated;
      trace, thrown, wavCreated := TryBlock(env, view);
      if thrown.Some? {
        var sent := SendErrorToClient(ProcessingError(thrown.value));
        var closed := CloseSession();
        assert sent + closed == Finish(open, Terminal(start, env, view));
        trace := trace + sent + closed;
      }
      assert trace == Work(start, env) + Finish(open, Terminal(start, env, view));
      // finally
      buffer.DeleteTempFile();
      trace := trace + [DeleteRaw];
      if wavCreated {
        trace := trace + [DeleteWav];
      }
    }
  }
}

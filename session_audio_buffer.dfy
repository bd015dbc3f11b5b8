/** The per-session append buffer (backend SessionAudioBuffer.java).

    The bytes of one session go through a buffered output stream into a temp
    file. The model splits everything written so far into `flushed` (already
    handed to the file) and `pending` (still held by the stream); the stream is
    flushed when the running total is an exact multiple of 50000, and on close.
    `fileExists` says whether the temp file is still on disk: deleting it does
    not undo what the stream wrote, but the file then reads as length 0. */
module SessionBuffers {
  import opened Common
  import opened WebSocketSessions

  /** `append` flushes when the running total is a multiple of this. */
  const FlushEvery: nat := 50000

  const AlreadyClosed := "Buffer already closed for processing"

  /** The state of one buffer as a value. */
  datatype BufferState = BufferState(
    flushed: seq<Byte>,
    pending: seq<Byte>,
    closed: bool,
    totalBytesWritten: int,
    fileExists: bool)
  {
    /** Every byte accepted so far, in arrival order. */
    function Written(): seq<Byte>
    {
      flushed + pending
    }

    /** What `File.length()` reports for the temp file: 0 once it is deleted. */
    function FileLength(): nat
    {
      if fileExists then |flushed| else 0
    }

    /** The counter is the length of the stream, and a closed stream holds
        nothing back. */
    ghost predicate Valid()
    {
      totalBytesWritten == |flushed| + |pending| && (closed ==> pending == [])
    }
  }

  /** The state of a newly constructed buffer: open, empty, temp file created. */
  function NewBuffer(): (s: BufferState)
    ensures s.Valid() && !s.closed && s.fileExists
    ensures s.Written() == [] && s.totalBytesWritten == 0 && s.FileLength() == 0
  {
    BufferState([], [], false, 0, true)
  }

  /** `append(chunk)`: refused on a closed buffer; otherwise the chunk goes to
      the end of the stream and, when the new total is a multiple of 50000,
      the whole stream is flushed to the file. */
  function AppendStep(s: BufferState, chunk: seq<Byte>): (r: Result<BufferState, string>)
    ensures r.Failure? <==> s.closed
    ensures r.Failure? ==> r.error == AlreadyClosed
    ensures r.Success? ==>
      && r.value.Written() == s.Written() + chunk
      && r.value.totalBytesWritten == s.totalBytesWritten + |chunk|
      && !r.value.closed && r.value.fileExists == s.fileExists
      && s.flushed <= r.value.flushed
      && (r.value.totalBytesWritten % FlushEvery == 0 ==> r.value.pending == [])
      && (r.value.totalBytesWritten % FlushEvery != 0 ==> r.value.flushed == s.flushed)
    ensures s.Valid() && r.Success? ==> r.value.Valid()
  {
    if s.closed then Failure(AlreadyClosed)
    else
      var total := s.totalBytesWritten + |chunk|;
      if total % FlushEvery == 0 then
        Success(s.(flushed := s.flushed + s.pending + chunk, pending := [], totalBytesWritten := total))
      else
        Success(s.(pending := s.pending + chunk, totalBytesWritten := total))
  }

  /** `closeForProcessing()`: the first successful call flushes everything and
      closes the stream; on a closed buffer it does nothing. `fault` is what the
      flush does; when it throws, the exception's message is returned and
      nothing changes. */
  function CloseForProcessingStep(s: BufferState, fault: Io): (r: Result<BufferState, Option<string>>)
    ensures s.closed ==> r == Success(s)
    ensures !s.closed ==> (r.Failure? <==> fault.Throws?)
    ensures r.Failure? ==> r.error == fault.message
    ensures r.Success? ==>
      && r.value.closed
      && r.value.Written() == s.Written()
      && r.value.totalBytesWritten == s.totalBytesWritten
      && r.value.fileExists == s.fileExists
    ensures s.Valid() && r.Success? ==> r.value.Valid() && r.value.flushed == s.Written() && r.value.pending == []
  {
    if s.closed then Success(s)
    else if fault.Throws? then Failure(fault.message)
    else Success(s.(flushed := s.Written(), pending := [], closed := true))
  }

  /** `closeSilently()`: closes the stream if it is still open (closing flushes
      it; `closeFails` says the close threw, which is swallowed and leaves the
      buffer open), then deletes the temp file if it exists. `deleteFails` says
      `File.delete()` returned false, which is ignored and leaves the file on
      disk. */
  function CloseSilentlyStep(s: BufferState, closeFails: bool, deleteFails: bool): (r: BufferState)
    ensures r.fileExists <==> s.fileExists && deleteFails
    ensures !deleteFails ==> r.FileLength() == 0
    ensures r.closed <==> s.closed || !closeFails
    ensures r.Written() == s.Written() && r.totalBytesWritten == s.totalBytesWritten
    ensures s.closed ==> r == s.(fileExists := s.fileExists && deleteFails)
    ensures s.Valid() ==> r.Valid()
  {
    var s' := if !s.closed && !closeFails then s.(flushed := s.Written(), pending := [], closed := true) else s;
    s'.(fileExists := s.fileExists && deleteFails)
  }

  /** A second `closeForProcessing` after a successful one changes nothing,
      whatever its flush would do. */
  lemma CloseForProcessingIdempotent(s: BufferState, first: Io, second: Io)
    requires CloseForProcessingStep(s, first).Success?
    ensures CloseForProcessingStep(CloseForProcessingStep(s, first).value, second) == CloseForProcessingStep(s, first)
  {
  }

  /** Two teardowns are one teardown: once the first has closed the buffer,
      the second can only delete a file the first failed to delete, so the file
      survives both exactly when both deletes fail. */
  lemma CloseSilentlyTwice(s: BufferState, first: bool, firstDelete: bool, second: bool, secondDelete: bool)
    requires CloseSilentlyStep(s, first, firstDelete).closed
    ensures CloseSilentlyStep(CloseSilentlyStep(s, first, firstDelete), second, secondDelete)
      == CloseSilentlyStep(s, first, firstDelete && secondDelete)
  {
  }

  /** After `closeForProcessing` a teardown only (tries to) remove the file:
      the stream and the count stay as they were. */
  lemma CloseSilentlyAfterFinalize(s: BufferState, fault: Io, closeFails: bool, deleteFails: bool)
    requires s.Valid() && CloseForProcessingStep(s, fault).Success?
    ensures var f := CloseForProcessingStep(s, fault).value;
      CloseSilentlyStep(f, closeFails, deleteFails) == f.(fileExists := f.fileExists && deleteFails)
  {
  }

  /** Once finalised, every append is refused and the state is kept. */
  lemma NoAppendAfterFinalize(s: BufferState, fault: Io, chunk: seq<Byte>)
    requires CloseForProcessingStep(s, fault).Success?
    ensures AppendStep(CloseForProcessingStep(s, fault).value, chunk) == Failure(AlreadyClosed)
  {
  }

  /** The bytes of a sequence of frames, joined in order. */
  function Concat(chunks: seq<seq<Byte>>): seq<Byte>
  {
    if chunks == [] then [] else chunks[0] + Concat(chunks[1..])
  }

  /** Appending the frames one after another, stopping at the first refusal. */
  function AppendAll(s: BufferState, chunks: seq<seq<Byte>>): Result<BufferState, string>
    decreases |chunks|
  {
    if chunks == [] then Success(s)
    else
      match AppendStep(s, chunks[0])
      case Failure(e) => Failure(e)
      case Success(s') => AppendAll(s', chunks[1..])
  }

  /** On an open buffer every frame is accepted, the stream grows by exactly the
      frames' bytes in order and the counter by their total length. */
  lemma {:induction false} AppendAllConcatenates(s: BufferState, chunks: seq<seq<Byte>>)
    requires s.Valid() && !s.closed
    decreases |chunks|
    ensures AppendAll(s, chunks).Success?
    ensures var r := AppendAll(s, chunks).value;
      && r.Valid() && !r.closed && r.fileExists == s.fileExists
      && r.Written() == s.Written() + Concat(chunks)
      && r.totalBytesWritten == s.totalBytesWritten + |Concat(chunks)|
  {
    if chunks != [] {
      var s' := AppendStep(s, chunks[0]).value;
      AppendAllConcatenates(s', chunks[1..]);
      assert s.Written() + chunks[0] + Concat(chunks[1..]) == s.Written() + Concat(chunks);
    }
  }

  /** Appending any split of a payload into frames to a new buffer and then
      finalising it leaves exactly the payload in the temp file. */
  lemma FinalizedFileIsConcatenation(chunks: seq<seq<Byte>>)
    ensures AppendAll(NewBuffer(), chunks).Success?
    ensures var f := CloseForProcessingStep(AppendAll(NewBuffer(), chunks).value, Ok);
      f.Success? && f.value.flushed == Concat(chunks) && f.value.FileLength() == |Concat(chunks)|
      && f.value.totalBytesWritten == |Concat(chunks)|
  {
    AppendAllConcatenates(NewBuffer(), chunks);
  }

  class SessionAudioBuffer {
    const session: WebSocketSession
    var flushed: seq<Byte>
    var pending: seq<Byte>
    var closed: bool
    var totalBytesWritten: int
    var fileExists: bool

    function State(): BufferState
      reads this
    {
      BufferState(flushed, pending, closed, totalBytesWritten, fileExists)
    }

    ghost predicate Valid()
      reads this
    {
      State().Valid()
    }

    /** Creates the temp file and an empty open stream for `session`. A failure to
        create the temp file is modelled by the callers, which then build no buffer. */
    constructor (session: WebSocketSession)
      ensures this.session == session
      ensures State() == NewBuffer() && Valid()
    {
      this.session := session;
      flushed, pending, closed, totalBytesWritten, fileExists := [], [], false, 0, true;
    }

    /** `outputStream.flush()`: the pending bytes move to the file. */
    method Flush()
      modifies this
      ensures flushed == old(flushed) + old(pending) && pending == []
      ensures closed == old(closed) && totalBytesWritten == old(totalBytesWritten)
      ensures fileExists == old(fileExists)
    {
      flushed := flushed + pending;
      pending := [];
    }

    method Append(chunk: seq<Byte>) returns (r: Outcome<string>)
      requires Valid()
      modifies this
      ensures Valid()
      ensures match AppendStep(old(State()), chunk)
        case Success(s) => r == Pass && State() == s
        case Failure(e) => r == Fail(e) && State() == old(State())
    {
      if closed {
        return Fail(AlreadyClosed);
      }
      pending := pending + chunk;
      totalBytesWritten := totalBytesWritten + |chunk|;
      if totalBytesWritten % FlushEvery == 0 {
        Flush();
      }
      return Pass;
    }

    /** `getTotalBytes()`: the number of bytes accepted so far. */
    function GetTotalBytes(): (n: int)
      reads this
      requires Valid()
      ensures n == |State().Written()|
    {
      totalBytesWritten
    }

    /** `tempFile.length()`. */
    function TempFileLength(): nat
      reads this
    {
      State().FileLength()
    }

    method CloseForProcessing(fault: Io) returns (r: Outcome<Option<string>>)
      requires Valid()
      modifies this
      ensures Valid()
      ensures match CloseForProcessingStep(old(State()), fault)
        case Success(s) => r == Pass && State() == s
        case Failure(e) => r == Fail(e) && State() == old(State())
    {
      if !closed {
        if fault.Throws? {
          return Fail(fault.message);
        }
        Flush();
        closed := true;
      }
      return Pass;
    }

    method CloseSilently(closeFails: bool, deleteFails: bool)
      requires Valid()
      modifies this
      ensures Valid()
      ensures State() == CloseSilentlyStep(old(State()), closeFails, deleteFails)
    {
      if !closed && !closeFails {
        Flush();
        closed := true;
      }
      if fileExists && !deleteFails {
        fileExists := false;
      }
    }

    /** `Files.deleteIfExists` on the temp file, as the processing task's cleanup
        does it; a failure to delete is swallowed there and not modelled. */
    method DeleteTempFile()
      modifies this
      ensures State() == old(State()).(fileExists := false)
    {
      if fileExists {
        fileExists := false;
      }
    }
  }
}

/** The browser-side recorder (frontend AudioRecorderService.ts).

    The service owns a WebSocket, a MediaRecorder, a microphone stream, a
    one-shot stop timer and a countdown interval; each is an opaque handle that
    is present or absent. Whatever the service does to the outside world (a
    callback, clearing a timer, stopping the recorder or the tracks, closing or
    sending on the socket, scheduling a delayed cleanup) is appended to
    `effects`. Browser events (a message, a data chunk, the recorder's stop
    event, a timer firing, the socket closing) are the public methods. */
module RecorderService {
  import opened Common

  type Handle = nat

  /** `WebSocket.readyState`. */
  datatype ReadyState = Connecting | Open | Closing | Closed

  /** `MediaRecorder.state`. */
  datatype RecorderState = Inactive | Recording | Paused

  datatype Socket = Socket(handle: Handle, readyState: ReadyState)

  datatype Recorder = Recorder(handle: Handle, state: RecorderState)

  /** A server message as the client's `JSON.parse` sees it: not parseable
      (or not an object), or an object with an optional string `type` and an
      optional string `message`. A `message` that is absent, null or the empty
      string is `None` or `Some("")`. */
  datatype Inbound = Unparseable | Parsed(kind: Option<string>, message: Option<string>)

  /** What `onResult` is given: the server's message as it is, or the
      client-built "no-match" object with its message. */
  datatype ResultPayload = WholeMessage(inbound: Inbound) | NoMatch(message: string)

  /** A callback invocation. */
  datatype Notice =
    | OnConnected
    | OnRecording(timeRemaining: int)
    | OnProcessing
    | OnResult(payload: ResultPayload)
    | OnError(error: Option<string>)
    | OnComplete

  /** One action on the outside world. */
  datatype Effect =
    | Notify(notice: Notice)
    | ClearTimeout(timer: Handle)
    | ClearInterval(timer: Handle)
    | StartRecorder(recorder: Handle, mimeType: string)
    | StopRecorder(recorder: Handle)
    | StopTracks(stream: Handle)
    | CloseSocket(socket: Handle)
    | SendChunk(socket: Handle, size: int)
    | SendDone(socket: Handle)
    | ScheduleCleanup

  /** The service's resource fields as a value. */
  datatype Fields = Fields(
    websocket: Option<Socket>,
    mediaRecorder: Option<Recorder>,
    audioStream: Option<Handle>,
    recordingTimer: Option<Handle>,
    countdownTimer: Option<Handle>,
    isRecording: bool)
  {
    /** Timers exist only while recording, and the stop timer exists whenever
        recording: no timer is left running once recording has ended. */
    predicate Valid()
    {
      && (!isRecording ==> recordingTimer.None? && countdownTimer.None?)
      && (isRecording ==> recordingTimer.Some?)
    }

    /** Nothing is held at all. */
    predicate Released()
    {
      && websocket.None? && mediaRecorder.None? && audioStream.None?
      && recordingTimer.None? && countdownTimer.None? && !isRecording
    }
  }

  const ConnectionFailed := "Error: WebSocket connection failed"
  const ConnectionTimeout := "Error: WebSocket connection timeout"
  const NoSupportedFormat := "Error: No supported audio format found"
  const StartFailedPrefix := "Failed to start recording: "
  const ConnectionLost := "Connection lost during recording"
  const NoMatchFound := "No match found"

  /** The MIME types tried, in order of preference. */
  const MimeTypes := ["audio/webm;codecs=opus", "audio/webm", "audio/ogg;codecs=opus", "audio/mp4"]

  // ---------------------------------------------------------------- cleanup

  /** The fields after `cleanup()`. */
  function CleanedUp(f: Fields): (r: Fields)
    ensures r.recordingTimer.None? && r.countdownTimer.None?
    ensures r.mediaRecorder.None? && r.audioStream.None? && !r.isRecording
    ensures r.websocket == (if f.isRecording then f.websocket else None)
    ensures r.Valid()
  {
    Fields(if f.isRecording then f.websocket else None, None, None, None, None, false)
  }

  /** Clearing whichever of the two timers is set: the stop timer first. */
  function TimerEffects(f: Fields): seq<Effect>
  {
    (if f.recordingTimer.Some? then [ClearTimeout(f.recordingTimer.value)] else [])
    + (if f.countdownTimer.Some? then [ClearInterval(f.countdownTimer.value)] else [])
  }

  /** Stopping the recorder, unless it is already inactive. */
  function RecorderEffects(f: Fields): seq<Effect>
  {
    if f.mediaRecorder.Some? && f.mediaRecorder.value.state != Inactive
    then [StopRecorder(f.mediaRecorder.value.handle)] else []
  }

  /** Stopping the microphone tracks, if the stream is held. */
  function StreamEffects(f: Fields): seq<Effect>
  {
    if f.audioStream.Some? then [StopTracks(f.audioStream.value)] else []
  }

  /** Closing the socket, when cleanup lets it go and it is open or connecting. */
  function SocketEffects(f: Fields): seq<Effect>
  {
    if f.websocket.Some? && !f.isRecording && f.websocket.value.readyState in {Open, Connecting}
    then [CloseSocket(f.websocket.value.handle)] else []
  }

  /** What `cleanup()` does to the outside world, in order. */
  function CleanupEffects(f: Fields): seq<Effect>
  {
    TimerEffects(f) + RecorderEffects(f) + StreamEffects(f) + SocketEffects(f)
  }

  /** `cleanup()` releases every timer, the recorder and the stream; it closes
      an open or connecting socket exactly when not recording, and never
      touches a socket it keeps. */
  lemma CleanupReleases(f: Fields)
    ensures var e := CleanupEffects(f);
      && (forall t: Handle :: ClearTimeout(t) in e <==> f.recordingTimer == Some(t))
      && (forall t: Handle :: ClearInterval(t) in e <==> f.countdownTimer == Some(t))
      && (forall t: Handle :: StopTracks(t) in e <==> f.audioStream == Some(t))
      && (forall h: Handle :: CloseSocket(h) in e <==>
            && !f.isRecording && f.websocket.Some? && f.websocket.value.handle == h
            && f.websocket.value.readyState in {Open, Connecting})
      && (f.isRecording ==> CleanedUp(f).websocket == f.websocket)
  {
    var e := CleanupEffects(f);
    assert e == TimerEffects(f) + RecorderEffects(f) + StreamEffects(f) + SocketEffects(f);
    forall t: Handle ensures ClearTimeout(t) in e <==> f.recordingTimer == Some(t) {
      assert ClearTimeout(t) in e <==> ClearTimeout(t) in TimerEffects(f);
    }
    forall t: Handle ensures ClearInterval(t) in e <==> f.countdownTimer == Some(t) {
      assert ClearInterval(t) in e <==> ClearInterval(t) in TimerEffects(f);
    }
    forall t: Handle ensures StopTracks(t) in e <==> f.audioStream == Some(t) {
      assert StopTracks(t) in e <==> StopTracks(t) in StreamEffects(f);
    }
    forall h: Handle ensures CloseSocket(h) in e <==> CloseSocket(h) in SocketEffects(f) {
    }
  }

  /** Once not recording, `cleanup()` is idempotent: a second call changes
      nothing and does nothing. */
  lemma CleanupIdempotentWhenIdle(f: Fields)
    requires !f.isRecording
    ensures CleanedUp(f).Released()
    ensures CleanedUp(CleanedUp(f)) == CleanedUp(f)
    ensures CleanupEffects(CleanedUp(f)) == []
  {
  }

  /** A `cleanup()` while recording keeps the socket for the reply; a second
      `cleanup()` releases it, and a third does nothing. */
  lemma CleanupTwiceReleasesAll(f: Fields)
    ensures CleanedUp(CleanedUp(f)).Released()
    ensures CleanedUp(CleanedUp(CleanedUp(f))) == CleanedUp(CleanedUp(f))
    ensures f.isRecording && f.websocket.Some? ==>
      CleanupEffects(CleanedUp(f)) ==
        (if f.websocket.value.readyState in {Open, Connecting} then [CloseSocket(f.websocket.value.handle)] else [])
  {
  }

  // ---------------------------------------------------------------- stop

  /** The fields after `stopRecording()`: nothing when not recording;
      otherwise both timers cleared, a live recorder stopped and the flag
      dropped. The socket and the stream are kept. */
  function Stopped(f: Fields): (r: Fields)
    ensures !f.isRecording ==> r == f
    ensures f.isRecording ==>
      && r.recordingTimer.None? && r.countdownTimer.None? && !r.isRecording
      && r.websocket == f.websocket && r.audioStream == f.audioStream
      && (f.mediaRecorder.Some? ==> r.mediaRecorder == Some(f.mediaRecorder.value.(state := Inactive)))
      && (f.mediaRecorder.None? ==> r.mediaRecorder.None?)
    ensures f.Valid() ==> r.Valid()
  {
    if !f.isRecording then f
    else
      f.(recordingTimer := None, countdownTimer := None, isRecording := false,
         mediaRecorder := if f.mediaRecorder.Some? then Some(f.mediaRecorder.value.(state := Inactive)) else None)
  }

  function StopEffects(f: Fields): seq<Effect>
  {
    if !f.isRecording then [] else TimerEffects(f) + RecorderEffects(f)
  }

  /** `stopRecording()` is idempotent, and a later `cleanup()` then closes the
      socket it kept. */
  lemma StopIdempotent(f: Fields)
    ensures Stopped(Stopped(f)) == Stopped(f)
    ensures StopEffects(Stopped(f)) == []
    ensures CleanedUp(Stopped(f)).websocket.None?
  {
  }

  // ---------------------------------------------------------------- dispatch

  /** What `handleWebSocketMessage` does with one message: the callbacks it
      calls in order, whether it cleans up at once, and whether it schedules a
      cleanup 100 ms later. */
  datatype Reaction = Reaction(notices: seq<Notice>, cleanupNow: bool, cleanupLater: bool)

  function Dispatch(m: Inbound): (r: Reaction)
    ensures r.cleanupNow <==> m.Parsed? && m.kind == Some("error")
    ensures r.cleanupLater <==> m.Parsed? && m.kind in {Some("result"), Some("no-match")}
    ensures !(r.cleanupNow && r.cleanupLater)
    ensures m.Parsed? && m.kind == Some("result") ==>
      r.notices == [OnResult(WholeMessage(m)), OnComplete]
    ensures m.Parsed? && m.kind == Some("no-match") ==>
      r.notices == [OnResult(NoMatch(if m.message in {None, Some("")} then NoMatchFound else m.message.value)), OnComplete]
    ensures m.Parsed? && m.kind == Some("error") ==> r.notices == [OnError(m.message)]
    ensures m.Parsed? && m.kind == Some("connected") ==> r == Reaction([OnConnected], false, false)
    ensures m.Parsed? && m.kind == Some("processing") ==> r == Reaction([OnProcessing], false, false)
    ensures m.Parsed? && m.kind == Some("ack") ==> r == Reaction([], false, false)
    ensures m.Unparseable? || m.kind !in {Some("connected"), Some("processing"), Some("result"), Some("no-match"), Some("error")} ==>
      r == Reaction([], false, false)
  {
    match m
    case Unparseable => Reaction([], false, false)
    case Parsed(kind, message) =>
      if kind == Some("connected") then Reaction([OnConnected], false, false)
      else if kind == Some("ack") then Reaction([], false, false)
      else if kind == Some("processing") then Reaction([OnProcessing], false, false)
      else if kind == Some("result") then Reaction([OnResult(WholeMessage(m)), OnComplete], false, true)
      else if kind == Some("no-match") then
        var text := if message.Some? && message.value != "" then message.value else NoMatchFound;
        Reaction([OnResult(NoMatch(text)), OnComplete], false, true)
      else if kind == Some("error") then Reaction([OnError(message)], true, false)
      else Reaction([], false, false)
  }

  function Notifications(notices: seq<Notice>): (e: seq<Effect>)
    ensures |e| == |notices| && forall i | 0 <= i < |e| :: e[i] == Notify(notices[i])
  {
    if notices == [] then [] else [Notify(notices[0])] + Notifications(notices[1..])
  }

  // ---------------------------------------------------------------- MIME type

  /** The position of the first entry of `types` that is supported, or
      `|types|` if there is none. */
  function FirstSupportedIndex(types: seq<string>, supported: string -> bool): (i: nat)
    ensures i <= |types|
    ensures forall j | 0 <= j < i :: !supported(types[j])
    ensures i < |types| ==> supported(types[i])
  {
    if types == [] || supported(types[0]) then 0
    else 1 + FirstSupportedIndex(types[1..], supported)
  }

  /** The first entry of `types` that is supported, if any. */
  function FirstSupported(types: seq<string>, supported: string -> bool): (r: Option<string>)
    ensures r.None? <==> forall i | 0 <= i < |types| :: !supported(types[i])
    ensures r.Some? ==> r.value in types && supported(r.value)
  {
    var i := FirstSupportedIndex(types, supported);
    if i < |types| then Some(types[i]) else None
  }

  /** `getSupportedMimeType()`: tries the four types in order of preference
      and returns the first the browser supports, or nothing. */
  method GetSupportedMimeType(isTypeSupported: string -> bool) returns (r: Option<string>)
    ensures r == FirstSupported(MimeTypes, isTypeSupported)
  {
    var i := 0;
    while i < |MimeTypes|
      invariant 0 <= i <= |MimeTypes|
      invariant forall j | 0 <= j < i :: !isTypeSupported(MimeTypes[j])
    {
      if isTypeSupported(MimeTypes[i]) {
        return Some(MimeTypes[i]);
      }
      i := i + 1;
    }
    return None;
  }

  // ---------------------------------------------------------------- countdown

  /** The countdown's closure state: the value shown and whether the interval
      is still set. */
  datatype Countdown = Countdown(remaining: int, running: bool)

  /** The value the countdown starts from: whole seconds, rounded down. */
  function CountdownStart(durationMs: int): (v: int)
    ensures v * 1000 <= durationMs < v * 1000 + 1000
  {
    durationMs / 1000
  }

  /** One firing of the interval: one second less, and the interval cleared
      once the value reaches zero or below. */
  function Tick(c: Countdown): (r: Countdown)
    requires c.running
    ensures r.remaining == c.remaining - 1
    ensures r.running <==> r.remaining > 0
  {
    var v := c.remaining - 1;
    Countdown(v, v > 0)
  }

  /** `k` firings of the interval; a cleared interval fires no more. */
  function Ticks(c: Countdown, k: nat): Countdown
    decreases k
  {
    if k == 0 || !c.running then c else Ticks(Tick(c), k - 1)
  }

  /** The number of firings after which the interval is cleared. */
  function TicksToClear(v: int): nat
  {
    if v <= 1 then 1 else v
  }

  /** Started at `v`, the countdown runs for exactly `TicksToClear(v)`
      firings (one when `v` is 1 or less, `v` otherwise), showing `v - k`
      after the `k`-th, and then stays still. */
  lemma {:induction false} CountdownRuns(v: int, k: nat)
    decreases k
    ensures var c := Ticks(Countdown(v, true), k);
      && (c.running <==> k < TicksToClear(v))
      && c.remaining == v - (if k < TicksToClear(v) then k else TicksToClear(v))
  {
    if k > 0 {
      var c := Tick(Countdown(v, true));
      if c.running {
        CountdownRuns(v - 1, k - 1);
      }
    }
  }

  // ---------------------------------------------------------------- the service

  /** How the asynchronous steps of `startRecording` end. */
  datatype ConnectOutcome =
    | Opened
    /** `onerror` fired before `onopen`; the socket is then closed. */
    | ErrorEvent
    /** Still not open after 5 s; the socket is left connecting. */
    | TimedOut

  datatype MicOutcome = Granted | Denied(error: string)

  datatype StartEnv = StartEnv(connect: ConnectOutcome, mic: MicOutcome, isTypeSupported: string -> bool)

  /** The error `startRecording` rethrows, as `${error}` renders it: the
      first step to fail decides it. */
  function StartError(env: StartEnv): (e: Option<string>)
    ensures e.None? <==> env.connect.Opened? && env.mic.Granted? && FirstSupported(MimeTypes, env.isTypeSupported).Some?
  {
    match env.connect
    case ErrorEvent => Some(ConnectionFailed)
    case TimedOut => Some(ConnectionTimeout)
    case Opened =>
      match env.mic
      case Denied(e) => Some(e)
      case Granted =>
        if FirstSupported(MimeTypes, env.isTypeSupported).None? then Some(NoSupportedFormat) else None
  }

  class AudioRecorderService {
    const recordingDuration: int
    var websocket: Option<Socket>
    var mediaRecorder: Option<Recorder>
    var audioStream: Option<Handle>
    var recordingTimer: Option<Handle>
    var countdownTimer: Option<Handle>
    var isRecording: bool
    /** The countdown closure's `timeRemaining`. */
    var timeRemaining: int
    /** The next unused handle for a browser object. */
    var nextHandle: Handle
    var effects: seq<Effect>

    function State(): Fields
      reads this
    {
      Fields(websocket, mediaRecorder, audioStream, recordingTimer, countdownTimer, isRecording)
    }

    ghost predicate Valid()
      reads this
    {
      State().Valid()
    }

    /** A new service holds nothing; the duration defaults to 10000 ms in the
        source and is a parameter here. */
    constructor (recordingDuration: int)
      ensures this.recordingDuration == recordingDuration
      ensures State().Released() && Valid() && effects == []
    {
      this.recordingDuration := recordingDuration;
      websocket, mediaRecorder, audioStream := None, None, None;
      recordingTimer, countdownTimer, isRecording := None, None, false;
      timeRemaining, nextHandle, effects := 0, 0, [];
    }

    /** `getIsRecording()`: while it reports true the stop timer is armed and
        the service holds something; while it reports false no timer is set. */
    function GetIsRecording(): (b: bool)
      reads this
      ensures b == State().isRecording
      ensures b ==> !State().Released()
      ensures State().Valid() && b ==> State().recordingTimer.Some?
      ensures State().Valid() && !b ==> State().recordingTimer.None? && State().countdownTimer.None?
    {
      isRecording
    }

    method Notify(n: Notice)
      modifies this
      ensures effects == old(effects) + [Effect.Notify(n)]
      ensures State() == old(State()) && timeRemaining == old(timeRemaining) && nextHandle == old(nextHandle)
    {
      effects := effects + [Effect.Notify(n)];
    }

    method NewHandle() returns (h: Handle)
      modifies this
      ensures h == old(nextHandle) && nextHandle == h + 1
      ensures State() == old(State()) && effects == old(effects) && timeRemaining == old(timeRemaining)
    {
      h := nextHandle;
      nextHandle := nextHandle + 1;
    }

    /** The timer-clearing blocks shared by `cleanup()` and `stopRecording()`. */
    method ClearTimers()
      modifies this
      ensures State() == old(State()).(recordingTimer := None, countdownTimer := None)
      ensures effects == old(effects) + TimerEffects(old(State()))
      ensures timeRemaining == old(timeRemaining) && nextHandle == old(nextHandle)
    {
      if recordingTimer.Some? {
        effects := effects + [ClearTimeout(recordingTimer.value)];
        recordingTimer := None;
      }
      if countdownTimer.Some? {
        effects := effects + [ClearInterval(countdownTimer.value)];
        countdownTimer := None;
      }
    }

    /** The blocks of `cleanup()` that stop and drop the recorder and the
        microphone stream. */
    method ReleaseMedia()
      modifies this
      ensures State() == old(State()).(mediaRecorder := None, audioStream := None)
      ensures effects == old(effects) + RecorderEffects(old(State())) + StreamEffects(old(State()))
      ensures timeRemaining == old(timeRemaining) && nextHandle == old(nextHandle)
    {
      if mediaRecorder.Some? && mediaRecorder.value.state != Inactive {
        effects := effects + [StopRecorder(mediaRecorder.value.handle)];
      }
      mediaRecorder := None;
      if audioStream.Some? {
        effects := effects + [StopTracks(audioStream.value)];
        audioStream := None;
      }
    }

    /** The last blocks of `cleanup()`: the socket is let go only when not
        recording (closed first if open or connecting), and the flag drops. */
    method ReleaseSocket()
      modifies this
      ensures State() == old(State()).(websocket := if old(isRecording) then old(websocket) else None, isRecording := false)
      ensures effects == old(effects) + SocketEffects(old(State()))
      ensures timeRemaining == old(timeRemaining) && nextHandle == old(nextHandle)
    {
      if websocket.Some? && !isRecording {
        if websocket.value.readyState == Open || websocket.value.readyState == Connecting {
          effects := effects + [CloseSocket(websocket.value.handle)];
        }
        websocket := None;
      }
      isRecording := false;
    }

    /** `cleanup()`. */
    method Cleanup()
      modifies this
      ensures State() == CleanedUp(old(State()))
      ensures effects == old(effects) + CleanupEffects(old(State()))
      ensures timeRemaining == old(timeRemaining) && nextHandle == old(nextHandle)
    {
      ClearTimers();
      ReleaseMedia();
      ReleaseSocket();
    }

    /** `destroy()`: the cleanup run on unmount. */
    method Destroy()
      modifies this
      ensures State() == CleanedUp(old(State()))
      ensures effects == old(effects) + CleanupEffects(old(State()))
      ensures timeRemaining == old(timeRemaining) && nextHandle == old(nextHandle)
    {
      Cleanup();
    }

    /** `stopRecording()`, also what the stop timer runs when it fires. */
    method StopRecording()
      modifies this
      ensures State() == Stopped(old(State()))
      ensures effects == old(effects) + StopEffects(old(State()))
      ensures timeRemaining == old(timeRemaining) && nextHandle == old(nextHandle)
    {
      if !isRecording {
        return;
      }
      ClearTimers();
      if mediaRecorder.Some? && mediaRecorder.value.state != Inactive {
        effects := effects + [StopRecorder(mediaRecorder.value.handle)];
        mediaRecorder := Some(mediaRecorder.value.(state := Inactive));
      }
      isRecording := false;
    }

    /** `startCountdown()`: shows the whole seconds and sets the interval. */
    method StartCountdown()
      modifies this
      ensures timeRemaining == CountdownStart(recordingDuration)
      ensures countdownTimer == Some(old(nextHandle)) && nextHandle == old(nextHandle) + 1
      ensures State() == old(State()).(countdownTimer := countdownTimer)
      ensures effects == old(effects) + [Effect.Notify(OnRecording(timeRemaining))]
    {
      timeRemaining := recordingDuration / 1000;
      Notify(OnRecording(timeRemaining));
      var h := NewHandle();
      countdownTimer := Some(h);
    }

    /** One firing of the countdown interval (it fires only while set). */
    method CountdownTick()
      requires countdownTimer.Some?
      modifies this
      ensures Countdown(timeRemaining, countdownTimer.Some?) == Tick(Countdown(old(timeRemaining), true))
      ensures countdownTimer.Some? ==> countdownTimer == old(countdownTimer)
      ensures State() == old(State()).(countdownTimer := countdownTimer)
      ensures effects == old(effects) + [Effect.Notify(OnRecording(timeRemaining))]
        + (if countdownTimer.None? then [ClearInterval(old(countdownTimer).value)] else [])
      ensures nextHandle == old(nextHandle)
    {
      timeRemaining := timeRemaining - 1;
      Notify(OnRecording(timeRemaining));
      if timeRemaining <= 0 && countdownTimer.Some? {
        effects := effects + [ClearInterval(countdownTimer.value)];
        countdownTimer := None;
      }
    }

    /** The `catch` block of `startRecording`: clean up, report, rethrow. */
    method FailStart(error: string) returns (r: Outcome<string>)
      modifies this
      ensures r == Fail(error)
      ensures State() == CleanedUp(old(State()))
      ensures effects == old(effects) + CleanupEffects(old(State())) + [Effect.Notify(OnError(Some(StartFailedPrefix + error)))]
      ensures timeRemaining == old(timeRemaining) && nextHandle == old(nextHandle)
    {
      Cleanup();
      Notify(OnError(Some(StartFailedPrefix + error)));
      return Fail(error);
    }

    /** `connectWebSocket()`: a new socket, which opens, fails with an error
        event (and is then closed) or is still connecting when the 5 s timeout
        rejects. Returns the rejection's text, if any. */
    method ConnectWebSocket(outcome: ConnectOutcome) returns (error: Option<string>)
      modifies this
      ensures websocket == Some(Socket(old(nextHandle),
        match outcome case Opened => Open case ErrorEvent => Closed case TimedOut => Connecting))
      ensures nextHandle == old(nextHandle) + 1
      ensures State() == old(State()).(websocket := websocket)
      ensures effects == old(effects) && timeRemaining == old(timeRemaining)
      ensures error == match outcome case Opened => None case ErrorEvent => Some(ConnectionFailed)
                                     case TimedOut => Some(ConnectionTimeout)
    {
      var socket := NewHandle();
      websocket := Some(Socket(socket, Connecting));
      match outcome {
        case Opened =>
          websocket := Some(Socket(socket, Open));
          error := None;
        case ErrorEvent =>
          websocket := Some(Socket(socket, Closed));
          error := Some(ConnectionFailed);
        case TimedOut =>
          error := Some(ConnectionTimeout);
      }
    }

    /** Steps 3 to 7 of `startRecording()` once a MIME type is chosen: the
        recorder is started, the flag raised, the countdown and the stop timer
        set. */
    method BeginRecording(mimeType: string)
      requires !isRecording && recordingTimer.None? && countdownTimer.None?
      modifies this
      ensures Valid() && isRecording
      ensures mediaRecorder == Some(Recorder(old(nextHandle), Recording))
      ensures countdownTimer == Some(old(nextHandle) + 1)
      ensures recordingTimer == Some(old(nextHandle) + 2)
      ensures nextHandle == old(nextHandle) + 3
      ensures websocket == old(websocket) && audioStream == old(audioStream)
      ensures timeRemaining == CountdownStart(recordingDuration)
      ensures effects == old(effects) + [StartRecorder(old(nextHandle), mimeType),
                                         Effect.Notify(OnRecording(CountdownStart(recordingDuration)))]
    {
      var recorder := NewHandle();
      mediaRecorder := Some(Recorder(recorder, Recording));
      effects := effects + [StartRecorder(recorder, mimeType)];
      isRecording := true;
      StartCountdown();
      var timer := NewHandle();
      recordingTimer := Some(timer);
    }

    /** `startRecording()`. While recording it does nothing. Otherwise it
        connects, opens the microphone, picks a MIME type and starts the
        recorder, the countdown and the stop timer; the first step that fails
        ends it with a cleanup, an `onError` and the error rethrown. The
        asynchronous steps are taken as atomic and their outcomes are `env`. */
    method StartRecording(env: StartEnv) returns (r: Outcome<string>)
      requires Valid()
      modifies this
      ensures Valid()
      ensures old(isRecording) ==> r == Pass && State() == old(State()) && effects == old(effects)
      ensures !old(isRecording) && StartError(env).Some? ==>
        && r == Fail(StartError(env).value)
        && State().Released()
        && |effects| > 0 && effects[|effects| - 1] == Effect.Notify(OnError(Some(StartFailedPrefix + StartError(env).value)))
      ensures !old(isRecording) && StartError(env).None? ==>
        var socket := old(nextHandle);
        && r == Pass
        && isRecording
        && websocket == Some(Socket(socket, Open))
        && audioStream == Some(socket + 1)
        && mediaRecorder == Some(Recorder(socket + 2, Recording))
        && countdownTimer == Some(socket + 3)
        && recordingTimer == Some(socket + 4)
        && timeRemaining == CountdownStart(recordingDuration)
        && effects == old(effects) + [
             StartRecorder(socket + 2, FirstSupported(MimeTypes, env.isTypeSupported).value),
             Effect.Notify(OnRecording(CountdownStart(recordingDuration)))]
    {
      if isRecording {
        return Pass;
      }
      // Step 1: connect
      var error := ConnectWebSocket(env.connect);
      if error.Some? {
        r := FailStart(error.value);
        return;
      }
      // Step 2: microphone
      if env.mic.Denied? {
        r := FailStart(env.mic.error);
        return;
      }
      var stream := NewHandle();
      audioStream := Some(stream);
      // Step 3: the recorder
      var mimeType := GetSupportedMimeType(env.isTypeSupported);
      if mimeType.None? {
        r := FailStart(NoSupportedFormat);
        return;
      }
      BeginRecording(mimeType.value);
      return Pass;
    }

    /** `handleWebSocketMessage(data)`. */
    method HandleWebSocketMessage(m: Inbound)
      modifies this
      ensures var reaction := Dispatch(m);
        && (reaction.cleanupNow ==>
              && State() == CleanedUp(old(State()))
              && effects == old(effects) + Notifications(reaction.notices) + CleanupEffects(old(State())))
        && (!reaction.cleanupNow ==>
              && State() == old(State())
              && effects == old(effects) + Notifications(reaction.notices)
                 + (if reaction.cleanupLater then [ScheduleCleanup] else []))
      ensures timeRemaining == old(timeRemaining) && nextHandle == old(nextHandle)
    {
      var reaction := Dispatch(m);
      effects := effects + Notifications(reaction.notices);
      if reaction.cleanupLater {
        effects := effects + [ScheduleCleanup];
      }
      if reaction.cleanupNow {
        Cleanup();
      }
    }

    /** `ondataavailable`: a chunk goes to the server only when it is non-empty
        and the socket is open. */
    method OnDataAvailable(size: int)
      modifies this
      ensures State() == old(State()) && timeRemaining == old(timeRemaining) && nextHandle == old(nextHandle)
      ensures effects == old(effects)
        + (if size > 0 && websocket.Some? && websocket.value.readyState == Open
           then [SendChunk(websocket.value.handle, size)] else [])
    {
      if size > 0 && websocket.Some? && websocket.value.readyState == Open {
        effects := effects + [SendChunk(websocket.value.handle, size)];
      }
    }

    /** `handleRecordingComplete()`, run on the recorder's stop event: "done"
        on an open socket, otherwise "Connection lost during recording"; then
        the microphone tracks are stopped. */
    method HandleRecordingComplete()
      modifies this
      ensures State() == old(State()).(audioStream := None)
      ensures timeRemaining == old(timeRemaining) && nextHandle == old(nextHandle)
      ensures effects == old(effects)
        + (if websocket.Some? && websocket.value.readyState == Open
           then [SendDone(websocket.value.handle)]
           else [Effect.Notify(OnError(Some(ConnectionLost)))])
        + (if old(audioStream).Some? then [StopTracks(old(audioStream).value)] else [])
    {
      if websocket.Some? && websocket.value.readyState == Open {
        effects := effects + [SendDone(websocket.value.handle)];
      } else {
        Notify(OnError(Some(ConnectionLost)));
      }
      if audioStream.Some? {
        effects := effects + [StopTracks(audioStream.value)];
        audioStream := None;
      }
    }

    /** The socket's `onclose`: it is now closed, and the service cleans up. */
    method OnSocketClosed(socket: Handle)
      modifies this
      ensures var before := old(State());
        var marked := if before.websocket.Some? && before.websocket.value.handle == socket
                      then before.(websocket := Some(Socket(socket, Closed))) else before;
        && State() == CleanedUp(marked)
        && effects == old(effects) + CleanupEffects(marked)
      ensures timeRemaining == old(timeRemaining) && nextHandle == old(nextHandle)
    {
      if websocket.Some? && websocket.value.handle == socket {
        websocket := Some(Socket(socket, Closed));
      }
      Cleanup();
    }
  }

  /** A socket closed by the server never gets a close of its own from the
      client's cleanup. */
  lemma ClosedSocketNotClosedAgain(f: Fields, socket: Handle)
    requires f.websocket.Some? && f.websocket.value == Socket(socket, Closed)
    ensures CloseSocket(socket) !in CleanupEffects(f)
  {
  }
}

# Sonic Resonance capture pipeline in Dafny

A browser records about ten seconds of microphone audio. It streams it in chunks over a WebSocket to a Spring backend, then sends `{"type":"done"}`. The backend works in three steps:

- **Accumulate.** It appends each binary frame to a per-session temp file, through `SessionAudioBuffer`, and acknowledges every frame with the running total.
- **Process.** On "done" it says "processing" and submits one `AudioProcessingTask` to a worker pool.
- **Reply.** The task finalises the buffer and rejects an empty recording. It decodes the audio with ffmpeg and calls the fingerprint service. Then it sends one result or error, closes the connection, and deletes the raw and WAV files in a `finally` block.

On the client, `AudioRecorderService` owns the socket, the MediaRecorder, the microphone stream and two timers. `App.tsx` maps the URL under `/sonicres` to one of five pages.

The model has one module per source file. Each is written in that file's own form:

- **Stateful objects become classes.** These are the buffer, the connection handler, the processing task, the result bean, the recorder service and the app. Each method's postcondition gives its new state as a pure step function of its old state, and the lemmas are proved about those functions.
- **Pure logic becomes functions.** These are the confidence normalisation, the task's success ladder, message dispatch, route extraction and page selection.
- **The MIME-type search stays a loop.** It is a `while` loop proved against a reference function.

| file | models |
|---|---|
| `common.dfy` | `Option`, `Result`, `Outcome`, the I/O-fault oracle `Io`, bytes |
| `fingerprint_result.dfy` | `FingerprintResult.java` |
| `websocket_session.dfy` | the server side of one connection: open flag, messages sent, closes |
| `session_audio_buffer.dfy` | `SessionAudioBuffer.java` |
| `audio_processing_task.dfy` | `AudioProcessingTask.java` |
| `audio_socket_connection_handler.dfy` | `AudioSocketConnectionHandler.java` |
| `scenarios.dfy` | whole sessions through handler and task: normal run, empty input, disconnects, double teardown |
| `audio_recorder_service.dfy` | `AudioRecorderService.ts` |
| `app_routing.dfy` | `App.tsx` |
| `wire_protocol.dfy` | how the backend's messages look to the client's dispatcher |

## How things are represented

**Collaborators are oracles.** The file system, ffmpeg and the fingerprint service are parameters that say how each call ended:
- `Io` says whether a file operation threw, and with which message.
- `DecodeRun` says how the ffmpeg process ended.
- `MatchOutcome` says what the fingerprint service returned or threw.

**The buffer.** Its contents are a `seq<bv8>`. The bytes already handed to the file are `flushed`; the bytes still held by the buffered stream are `pending`. Whether the temp file still exists is a flag, and `File.length()` reads 0 once the file is deleted.

**A task run is a trace of steps.** The trace records finalising, reading the size, creating the WAV file, decoding, matching, delivering a message, closing, and each deletion.

**The client's side effects are a log.** Callbacks, timer clears, recorder and track stops, socket sends and closes are appended to `effects`. Browser objects are numbered handles.

## Behaviour worth knowing

Each point is what the code does, and the model does the same.

- **"done" keeps the registry entry.** `handleRecordingComplete` submits the task but leaves the entry in `sessions`, so every session's buffer is torn down twice. The task deletes the raw file, and the later close runs `closeSilently` on the same buffer. `Scenarios.DoneThenRunThenClose` proves the second teardown changes nothing the task left behind.
- **A second "done" submits a second task.** Nothing in `handleRecordingComplete` stops it, so two tasks share one buffer and the client is told "processing" twice. `Scenarios.DoneTwiceThenRunBoth` proves the second run finds the connection closed, and, when the first finalisation succeeded, finds the file deleted and reads size 0.
- **A result has no `type`.** The task sends the `FingerprintResult` bean as it is: `trackName`, `artist`, `confidence`, and no `"type"` field. The client dispatches on `type`, so it ignores the result. `WireProtocol.NoResultEverShown` proves that no backend message ever reaches `onResult` or `onComplete`.
- **Confidence is not clamped.** `setConfidence` replaces null, NaN and infinities by 0.0 but does not clamp to [0, 1].
- **A failed buffer creation propagates.** If `afterConnectionEstablished` cannot create the temp file, it rethrows the exception and registers nothing.
- **A failed delete leaves the file.** `closeSilently` ignores a `false` from `File.delete()`. A task that runs after such a teardown then reads the bytes still on disk, not an empty file; `Scenarios.DropBetweenDoneAndRun` states both cases.

## Model

| member | source | states |
|---|---|---|
| FingerprintResults.NormalizeConfidence | backend-spring/src/main/java/com/sonicres/demo/features/audio/FingerprintResult.java:23-28 | the stored confidence is always finite: null, NaN and ±∞ become 0.0, a finite value is kept unchanged (no clamping) |
| FingerprintResults.NormalizeConfidenceIdempotent | backend-spring/src/main/java/com/sonicres/demo/features/audio/FingerprintResult.java:23-41 | storing what the getter returned changes nothing; a value is stored unchanged exactly when it is finite |
| FingerprintResults.FingerprintResult.constructor | backend-spring/src/main/java/com/sonicres/demo/features/audio/FingerprintResult.java:13 | a new bean has all three properties null |
| FingerprintResults.FingerprintResult.SetTrackName | backend-spring/src/main/java/com/sonicres/demo/features/audio/FingerprintResult.java:15-17 | the name is stored as given and the other two fields are untouched |
| FingerprintResults.FingerprintResult.SetArtist | backend-spring/src/main/java/com/sonicres/demo/features/audio/FingerprintResult.java:19-21 | the artist is stored as given and the other two fields are untouched |
| FingerprintResults.FingerprintResult.SetConfidence | backend-spring/src/main/java/com/sonicres/demo/features/audio/FingerprintResult.java:23-28 | stores the normalised value, which is finite and is what the getter then returns; the other fields are untouched |
| FingerprintResults.FingerprintResult.GetTrackName | backend-spring/src/main/java/com/sonicres/demo/features/audio/FingerprintResult.java:31-33 | returns the name last stored, or null; after `setTrackName(n)` it returns n |
| FingerprintResults.FingerprintResult.GetArtist | backend-spring/src/main/java/com/sonicres/demo/features/audio/FingerprintResult.java:35-37 | returns the artist last stored, or null; after `setArtist(a)` it returns a |
| FingerprintResults.FingerprintResult.GetConfidence | backend-spring/src/main/java/com/sonicres/demo/features/audio/FingerprintResult.java:39-41 | returns the stored confidence, which is null or finite, never NaN or infinite |
| FingerprintResults.FingerprintResult.View | backend-spring/src/main/java/com/sonicres/demo/features/audio/FingerprintResult.java:31-41 | the three getters' values together, as serialised; its confidence is never NaN or infinite |
| SessionBuffers.NewBuffer | backend-spring/src/main/java/com/sonicres/demo/features/audio/SessionAudioBuffer.java:14-20 | a new buffer is open, empty, counts 0 bytes and has its temp file, of length 0 |
| SessionBuffers.AppendStep | backend-spring/src/main/java/com/sonicres/demo/features/audio/SessionAudioBuffer.java:25-39 | refused with "Buffer already closed for processing" exactly on a closed buffer; otherwise the stream becomes old stream + chunk, the count grows by the chunk length, a total that is a multiple of 50000 leaves nothing pending, any other total leaves the flushed prefix as it was; the count always equals the stream length |
| SessionBuffers.CloseForProcessingStep | backend-spring/src/main/java/com/sonicres/demo/features/audio/SessionAudioBuffer.java:54-61 | on a closed buffer nothing happens; otherwise it fails exactly when the flush throws (with its message), else the buffer is closed with every byte flushed and the count unchanged |
| SessionBuffers.CloseSilentlyStep | backend-spring/src/main/java/com/sonicres/demo/features/audio/SessionAudioBuffer.java:63-77 | never fails; the temp file survives exactly when it existed and its delete returned false; the bytes and count are kept; the buffer ends closed unless its close threw; on a closed buffer only the file is touched |
| SessionBuffers.CloseForProcessingIdempotent | backend-spring/src/main/java/com/sonicres/demo/features/audio/SessionAudioBuffer.java:54-61 | a second finalisation after a successful one changes nothing, whatever its flush would do |
| SessionBuffers.CloseSilentlyTwice | backend-spring/src/main/java/com/sonicres/demo/features/audio/SessionAudioBuffer.java:63-77 | once a teardown has closed the buffer, a second one acts as the first alone would have with both deletes combined: the file survives both exactly when both deletes fail |
| SessionBuffers.CloseSilentlyAfterFinalize | backend-spring/src/main/java/com/sonicres/demo/features/audio/SessionAudioBuffer.java:54-77 | a teardown after finalisation only tries to remove the file; stream and count are kept |
| SessionBuffers.NoAppendAfterFinalize | backend-spring/src/main/java/com/sonicres/demo/features/audio/SessionAudioBuffer.java:25-61 | after finalisation every append is refused and the state is kept |
| SessionBuffers.AppendAllConcatenates | backend-spring/src/main/java/com/sonicres/demo/features/audio/SessionAudioBuffer.java:25-39 | on an open buffer any sequence of frames is accepted, the stream grows by their concatenation in order and the count by its length |
| SessionBuffers.FinalizedFileIsConcatenation | backend-spring/src/main/java/com/sonicres/demo/features/audio/SessionAudioBuffer.java:17-61 | a new buffer fed any frames and finalised holds exactly their concatenation in its file, with the matching length and count |
| SessionBuffers.SessionAudioBuffer.constructor | backend-spring/src/main/java/com/sonicres/demo/features/audio/SessionAudioBuffer.java:17-23 | the new object is in the new-buffer state for its session |
| SessionBuffers.SessionAudioBuffer.Flush | backend-spring/src/main/java/com/sonicres/demo/features/audio/SessionAudioBuffer.java:36-38 | pending bytes move to the end of the flushed prefix; nothing else changes |
| SessionBuffers.SessionAudioBuffer.Append | backend-spring/src/main/java/com/sonicres/demo/features/audio/SessionAudioBuffer.java:25-39 | the new state is the append step's result, or unchanged with the closed-buffer error |
| SessionBuffers.SessionAudioBuffer.GetTotalBytes | backend-spring/src/main/java/com/sonicres/demo/features/audio/SessionAudioBuffer.java:49-51 | the count returned is the number of bytes written |
| SessionBuffers.SessionAudioBuffer.CloseForProcessing | backend-spring/src/main/java/com/sonicres/demo/features/audio/SessionAudioBuffer.java:54-61 | the new state is the finalisation step's result, or unchanged with the exception's message |
| SessionBuffers.SessionAudioBuffer.CloseSilently | backend-spring/src/main/java/com/sonicres/demo/features/audio/SessionAudioBuffer.java:63-77 | the new state is the teardown step's result, including a delete that returned false |
| SessionBuffers.SessionAudioBuffer.DeleteTempFile | backend-spring/src/main/java/com/sonicres/demo/features/audio/AudioProcessingTask.java:294-302 | the raw file is removed if present and nothing else changes |
| ProcessingTask.DecodeSucceeded | backend-spring/src/main/java/com/sonicres/demo/features/audio/AudioProcessingTask.java:228-247 | a decode succeeds exactly when ffmpeg exited with 0 and left a non-empty output file; a launch that threw is a failure |
| ProcessingTask.Work | backend-spring/src/main/java/com/sonicres/demo/features/audio/AudioProcessingTask.java:33-73 | the steps before any reply start with finalising the buffer and never send or close |
| ProcessingTask.Terminal | backend-spring/src/main/java/com/sonicres/demo/features/audio/AudioProcessingTask.java:33-78 | the one reply of a run is a result or an error |
| ProcessingTask.Cleanup | backend-spring/src/main/java/com/sonicres/demo/features/audio/AudioProcessingTask.java:294-312 | the finally block neither sends nor closes |
| ProcessingTask.OneTerminalOutcome | backend-spring/src/main/java/com/sonicres/demo/features/audio/AudioProcessingTask.java:28-82 | every run sends exactly one result-or-error message and closes once if the connection was open at the start, and sends and closes nothing otherwise |
| ProcessingTask.FinalizeFirstCleanupLast | backend-spring/src/main/java/com/sonicres/demo/features/audio/AudioProcessingTask.java:28-82 | the buffer is finalised first, the raw size is read only right after it, the raw file is always deleted, a deletion is the last step, and the WAV file is deleted exactly when it was created |
| ProcessingTask.EmptyInputSkipsDecode | backend-spring/src/main/java/com/sonicres/demo/features/audio/AudioProcessingTask.java:41-46 | a finalised raw file of size 0 yields "No audio data received" with no WAV file, no decode and no match |
| ProcessingTask.DecodeFailureSkipsMatch | backend-spring/src/main/java/com/sonicres/demo/features/audio/AudioProcessingTask.java:54-61 | a failed decode never reaches the fingerprint service, replies "Audio decoding failed" and still deletes the WAV file |
| ProcessingTask.MatchOnlyAfterDecode | backend-spring/src/main/java/com/sonicres/demo/features/audio/AudioProcessingTask.java:54-72 | the fingerprint service runs only after a successful decode; a result is sent exactly when it was called and returned one, and it is that result |
| ProcessingTask.ExceptionsReported | backend-spring/src/main/java/com/sonicres/demo/features/audio/AudioProcessingTask.java:33-78 | an exception from the finalising flush, the WAV file creation or the fingerprint service is reported as "Audio processing error: " + its message ("null" when absent); the steps after it are skipped, and an open connection is still closed |
| ProcessingTask.DeletedFileReadsAsEmpty | backend-spring/src/main/java/com/sonicres/demo/features/audio/AudioProcessingTask.java:36-46 | if the raw file was deleted before the run, the run reports empty input and decodes nothing |
| ProcessingTask.AudioProcessingTask.constructor | backend-spring/src/main/java/com/sonicres/demo/features/audio/AudioProcessingTask.java:21-25 | the task holds the buffer it was given |
| ProcessingTask.AudioProcessingTask.SendErrorToClient | backend-spring/src/main/java/com/sonicres/demo/features/audio/AudioProcessingTask.java:265-281 | one error message is sent exactly when the connection is open, and nothing else changes |
| ProcessingTask.AudioProcessingTask.SendResultToClient | backend-spring/src/main/java/com/sonicres/demo/features/audio/AudioProcessingTask.java:250-263 | the result is sent exactly when the connection is open, and nothing else changes |
| ProcessingTask.AudioProcessingTask.CloseSession | backend-spring/src/main/java/com/sonicres/demo/features/audio/AudioProcessingTask.java:283-292 | the connection is closed once if it was open, and never closed twice |
| ProcessingTask.AudioProcessingTask.TryBlock | backend-spring/src/main/java/com/sonicres/demo/features/audio/AudioProcessingTask.java:33-73 | follows the early-return ladder; either it throws before anything is sent, with the error that becomes the reply, or it has sent the reply and closed |
| ProcessingTask.AudioProcessingTask.Run | backend-spring/src/main/java/com/sonicres/demo/features/audio/AudioProcessingTask.java:28-82 | the trace is the ladder for the buffer's and connection's state at the start; the buffer ends finalised (unless the flush threw) with its file deleted; exactly the terminal message is sent if the connection was open, and the connection ends closed |
| ConnectionHandler.ControlOf | backend-spring/src/main/java/com/sonicres/demo/features/audio/AudioSocketConnectionHandler.java:107-130 | "done" and "ping" are recognised exactly; a frame that is not a JSON object, or whose type is not a string, is invalid; anything else is ignored |
| ConnectionHandler.AudioSocketConnectionHandler.constructor | backend-spring/src/main/java/com/sonicres/demo/features/audio/AudioSocketConnectionHandler.java:37-39 | no sessions and no tasks |
| ConnectionHandler.AudioSocketConnectionHandler.AfterConnectionEstablished | backend-spring/src/main/java/com/sonicres/demo/features/audio/AudioSocketConnectionHandler.java:42-71 | registers a fresh empty buffer under the connection's id (other entries kept) and says "connected" if open; if the temp file cannot be created, the exception propagates and nothing changes |
| ConnectionHandler.AudioSocketConnectionHandler.HandleBinaryMessage | backend-spring/src/main/java/com/sonicres/demo/features/audio/AudioSocketConnectionHandler.java:74-100 | an unknown id first gets a fresh buffer; the frame is appended, and the ack carries the frame length and the new total; an append on a closed buffer throws and sends no ack |
| ConnectionHandler.AudioSocketConnectionHandler.HandleTextMessage | backend-spring/src/main/java/com/sonicres/demo/features/audio/AudioSocketConnectionHandler.java:103-131 | "done" submits one task for the registered buffer, or replies "No audio data received"; "ping" gets one pong if open; other types change nothing; an unreadable frame gets "Invalid message format"; the registry is never changed |
| ConnectionHandler.AudioSocketConnectionHandler.HandleRecordingComplete | backend-spring/src/main/java/com/sonicres/demo/features/audio/AudioSocketConnectionHandler.java:133-163 | without a buffer: the error and no task; with one: "processing" if open, exactly one new task on that buffer, and the entry kept |
| ConnectionHandler.AudioSocketConnectionHandler.SendError | backend-spring/src/main/java/com/sonicres/demo/features/audio/AudioSocketConnectionHandler.java:165-178 | the error is sent exactly when the connection is open |
| ConnectionHandler.AudioSocketConnectionHandler.AfterConnectionClosed | backend-spring/src/main/java/com/sonicres/demo/features/audio/AudioSocketConnectionHandler.java:181-195 | removes exactly this id's entry, keeps every other, and tears the removed buffer down |
| ConnectionHandler.AudioSocketConnectionHandler.HandleTransportError | backend-spring/src/main/java/com/sonicres/demo/features/audio/AudioSocketConnectionHandler.java:198-206 | the same removal and teardown as a close |
| Scenarios.DoneThenRunThenClose | backend-spring/src/main/java/com/sonicres/demo/features/audio/AudioSocketConnectionHandler.java:133-163 | "done", the task's run and then the close: one "processing", one reply and one close; the buffer's bytes are kept and its file is gone; after a successful finalisation the second teardown leaves exactly the state the task left |
| Scenarios.DropBeforeDone | backend-spring/src/main/java/com/sonicres/demo/features/audio/AudioSocketConnectionHandler.java:181-195 | a disconnect before "done" submits no task, sends nothing beyond "connected" and the ack, and deletes the temp file unless its delete returns false |
| Scenarios.DoneWithoutAudio | backend-spring/src/main/java/com/sonicres/demo/features/audio/AudioProcessingTask.java:41-46 | "done" with no frames replies "No audio data received", decodes nothing and closes once |
| Scenarios.ThreeFramesAndMatch | backend-spring/src/main/java/com/sonicres/demo/features/audio/AudioSocketConnectionHandler.java:74-100 | three frames get acks with running totals; the task reads the sum of their lengths as the raw size, runs every step of the ladder, sends the match result, closes once and deletes both files |
| Scenarios.DropBetweenDoneAndRun | backend-spring/src/main/java/com/sonicres/demo/features/audio/AudioProcessingTask.java:36-46 | a disconnect between "done" and the run whose delete succeeded leaves the task an empty file: its whole trace is finalise, read size 0, delete the raw file; if the delete failed, the task reads every byte sent; either way it sends and closes nothing |
| Scenarios.DoneTwiceThenRunBoth | backend-spring/src/main/java/com/sonicres/demo/features/audio/AudioSocketConnectionHandler.java:133-163 | two "done" frames submit two distinct tasks on one buffer and say "processing" twice; the first run replies and closes; the second sends and closes nothing and, after a successful first finalisation, only reads size 0 and deletes the raw file again |
| RecorderService.CleanedUp | frontend-react/src/services/AudioRecorderService.ts:311-353 | after cleanup both timers, the recorder and the stream are null and not recording; the socket is kept exactly when it was recording |
| RecorderService.CleanupReleases | frontend-react/src/services/AudioRecorderService.ts:311-353 | cleanup clears exactly the timers that were set and stops exactly the stream that was held; it closes the socket exactly when not recording and the socket is open or connecting |
| RecorderService.CleanupIdempotentWhenIdle | frontend-react/src/services/AudioRecorderService.ts:311-353 | when not recording, cleanup releases everything, and a second cleanup changes and does nothing |
| RecorderService.CleanupTwiceReleasesAll | frontend-react/src/services/AudioRecorderService.ts:338-351 | a cleanup while recording keeps the socket; a second one closes it if open or connecting and releases everything; a third changes nothing |
| RecorderService.Stopped | frontend-react/src/services/AudioRecorderService.ts:122-142 | stopping while not recording changes nothing; otherwise the timers are cleared, the recorder becomes inactive and the flag drops, with socket and stream kept |
| RecorderService.StopIdempotent | frontend-react/src/services/AudioRecorderService.ts:122-142 | a second stop changes and does nothing; a cleanup after a stop releases the socket |
| RecorderService.Dispatch | frontend-react/src/services/AudioRecorderService.ts:188-239 | "result" and "no-match" call onResult then onComplete and schedule a cleanup; a "no-match" without a message uses "No match found"; "error" calls onError and cleans up at once; "connected" and "processing" call onConnected and onProcessing and nothing else; "ack", unknown types and unparseable data change nothing |
| RecorderService.FirstSupportedIndex | frontend-react/src/services/AudioRecorderService.ts:290-306 | the position found is supported and every earlier entry is not |
| RecorderService.FirstSupported | frontend-react/src/services/AudioRecorderService.ts:290-306 | nothing is found exactly when no entry is supported; anything found is a supported entry of the list |
| RecorderService.GetSupportedMimeType | frontend-react/src/services/AudioRecorderService.ts:290-306 | the loop returns the first supported type of the four, in their order, or nothing |
| RecorderService.CountdownStart | frontend-react/src/services/AudioRecorderService.ts:272 | the countdown starts at the duration in whole seconds, rounded down |
| RecorderService.Tick | frontend-react/src/services/AudioRecorderService.ts:276-284 | each firing lowers the value by exactly 1, and the interval stays set exactly while the value is positive |
| RecorderService.CountdownRuns | frontend-react/src/services/AudioRecorderService.ts:271-285 | started at v, the interval fires max(v, 1) times, shows v − k after the k-th firing and is then cleared for good |
| RecorderService.StartError | frontend-react/src/services/AudioRecorderService.ts:56-117 | starting fails exactly when the socket does not open, the microphone is refused or no MIME type is supported, with the first failure's text |
| RecorderService.AudioRecorderService.constructor | frontend-react/src/services/AudioRecorderService.ts:41-44 | a new service holds nothing and is not recording |
| RecorderService.AudioRecorderService.GetIsRecording | frontend-react/src/services/AudioRecorderService.ts:358-360 | returns the recording flag; while true the stop timer is set and the service holds something, while false no timer is set |
| RecorderService.AudioRecorderService.ClearTimers | frontend-react/src/services/AudioRecorderService.ts:314-324 | clears whichever timers are set and nulls both |
| RecorderService.AudioRecorderService.ReleaseMedia | frontend-react/src/services/AudioRecorderService.ts:326-336 | stops a live recorder and the tracks and nulls both |
| RecorderService.AudioRecorderService.ReleaseSocket | frontend-react/src/services/AudioRecorderService.ts:338-351 | lets the socket go only when not recording (closing it if open or connecting) and drops the flag |
| RecorderService.AudioRecorderService.Cleanup | frontend-react/src/services/AudioRecorderService.ts:311-353 | the new fields and the actions taken are those of the cleanup specification |
| RecorderService.AudioRecorderService.Destroy | frontend-react/src/services/AudioRecorderService.ts:365-367 | the same as cleanup |
| RecorderService.AudioRecorderService.StopRecording | frontend-react/src/services/AudioRecorderService.ts:122-142 | the new fields and the actions taken are those of the stop specification |
| RecorderService.AudioRecorderService.StartCountdown | frontend-react/src/services/AudioRecorderService.ts:271-285 | shows the start value once and sets a new interval |
| RecorderService.AudioRecorderService.CountdownTick | frontend-react/src/services/AudioRecorderService.ts:276-284 | one firing: the value and the interval follow the tick specification, the new value is shown, and the interval is cleared when it reaches zero or below |
| RecorderService.AudioRecorderService.FailStart | frontend-react/src/services/AudioRecorderService.ts:111-116 | a failed start cleans up, calls onError with "Failed to start recording: " + the error and rethrows it |
| RecorderService.AudioRecorderService.ConnectWebSocket | frontend-react/src/services/AudioRecorderService.ts:147-183 | a new socket that is open, or closed after an error event, or still connecting at the timeout, with the matching rejection text |
| RecorderService.AudioRecorderService.BeginRecording | frontend-react/src/services/AudioRecorderService.ts:83-109 | the recorder is started with the chosen type, the flag is raised, and the countdown and stop timer are set |
| RecorderService.AudioRecorderService.StartRecording | frontend-react/src/services/AudioRecorderService.ts:56-117 | while recording: no change at all; on a failure: everything released, the error rethrown and onError last; on success: recording, with an open socket, stream, recorder, both timers, the countdown at its start value and the first supported type |
| RecorderService.AudioRecorderService.HandleWebSocketMessage | frontend-react/src/services/AudioRecorderService.ts:188-239 | the callbacks of the dispatch in order, then the scheduled or immediate cleanup it calls for; nothing else changes |
| RecorderService.AudioRecorderService.OnDataAvailable | frontend-react/src/services/AudioRecorderService.ts:89-93 | a chunk is sent exactly when it is non-empty and the socket is open |
| RecorderService.AudioRecorderService.HandleRecordingComplete | frontend-react/src/services/AudioRecorderService.ts:244-266 | "done" is sent exactly when the socket is open, otherwise onError("Connection lost during recording"); then the tracks are stopped and the stream nulled |
| RecorderService.AudioRecorderService.OnSocketClosed | frontend-react/src/services/AudioRecorderService.ts:167-170 | the socket is marked closed and the service cleans up |
| RecorderService.ClosedSocketNotClosedAgain | frontend-react/src/services/AudioRecorderService.ts:340-346 | cleanup never closes a socket that is already closed |
| Routing.ExtractRoute | frontend-react/src/App.tsx:22-24 | a path under "/sonicres" yields the rest, or "/" if nothing follows; any other path yields "/"; the route is never empty |
| Routing.FullPath | frontend-react/src/App.tsx:14 | the pushed path starts with the base path and the route follows it |
| Routing.RouteRoundTrip | frontend-react/src/App.tsx:13-24 | extracting the route from the path navigate pushes gives back any non-empty route |
| Routing.EmptyRouteReadsAsRoot | frontend-react/src/App.tsx:13-24 | the empty route comes back as "/" |
| Routing.ExtractThenPushIsStable | frontend-react/src/App.tsx:13-24 | a route read from any location reads the same after it is pushed again |
| Routing.RenderPage | frontend-react/src/App.tsx:40-55 | each of the four named routes gets its own page, and every other route the home page |
| Routing.RenderAfterReload | frontend-react/src/App.tsx:13-55 | reloading after navigate shows the page navigate showed, for every route |
| Routing.App.constructor | frontend-react/src/App.tsx:11 | the first render has route "/" and nothing pushed |
| Routing.App.Navigate | frontend-react/src/App.tsx:13-17 | the route becomes the path, "/sonicres" + path is pushed and becomes the location, and the page shown is the one the location names |
| Routing.App.LoadInitialRoute | frontend-react/src/App.tsx:19-25 | the route is the one extracted from the location |
| Routing.App.HandlePopState | frontend-react/src/App.tsx:27-33 | the route is extracted from the new location exactly as on load |
| WireProtocol.ClientView | backend-spring/src/main/java/com/sonicres/demo/features/audio/FingerprintResult.java:43-52 | every backend message parses on the client; it lacks a type exactly when it is a result |
| WireProtocol.ErrorReachesClient | frontend-react/src/services/AudioRecorderService.ts:227-231 | a backend error reaches onError with its text and makes the client clean up at once |
| WireProtocol.ResultIgnoredByClient | backend-spring/src/main/java/com/sonicres/demo/features/audio/FingerprintResult.java:43-52 | a backend result calls no callback and cleans nothing up |
| WireProtocol.ClientReacts | frontend-react/src/services/AudioRecorderService.ts:192-235 | only "connected", "processing" and "error" messages call back into the page, and only an error cleans up |
| WireProtocol.NoResultEverShown | frontend-react/src/services/AudioRecorderService.ts:208-225 | no sequence of backend messages ever makes the client call onResult or onComplete |

## Left out

- **Concurrency.** The worker pool, `ConcurrentHashMap`, `synchronized` and `volatile` are left out. Each handler call and each task run is one atomic step. Interleavings appear only as the orders in `Scenarios`.
- **External processes.** The ffmpeg process and its output reading are left out, as are the Docker decode path and `isRunningInDocker`. Only the success test of the local decode is modelled, in `DecodeSucceeded`.
- **Collaborators.** `AudioDecoderService.java` and `SimpleFingerprintService.java` are not part of this model. The fingerprint service is an oracle that returns a result or throws.
- **JSON.** Serialisation and parsing are left out. Messages are datatypes, and a text frame arrives already classified as `TextFrame`. The client receives messages as `Inbound`.
- **Logging, configuration and UI.** Console and `System.out` logging, `WebSocketConfig.java`, `WebSocketHandshakeInterceptor.java` and the page components are not modelled.
- **Failed sends.** An `IOException` from a `sendMessage` or `close` that the source catches is not modelled; sends on an open connection always succeed.
- **Propagated exceptions.** What the WebSocket framework does when an exception escapes a handler is not modelled. This covers `afterConnectionEstablished`, and `handleBinaryMessage` on a closed buffer. A rejected submission to the pool is also not modelled.
- SessionBuffers.AppendStep: a write that throws inside the stream is not modelled, so an append on an open buffer always succeeds.
- SessionBuffers.AppendStep: `BufferedOutputStream` also spills to the file on its own when its 8 KiB buffer fills, and that is not modelled. The only reads of the file length come after finalisation, and by then every byte has been flushed.
- SessionBuffers.AppendStep: the `long` counter is an unbounded integer, because overflow needs more than 2^63 bytes.
- SessionBuffers.CloseForProcessingStep: a `close()` that throws after a successful `flush()` is modelled as the flush throwing, so the bytes stay pending. The run reports the exception either way.
- SessionBuffers.SessionAudioBuffer.DeleteTempFile: a failed delete is swallowed by the source and is not modelled.
- FingerprintResults.NormalizeConfidence: finite doubles are reals, so rounding and -0.0 are not represented.
- WebSocketSessions.WebSocketSession: the connection is reduced to an open flag, the messages sent and a close count. Close statuses are not modelled.
- RecorderService: `setCallbacks` is not modelled. Every callback call is logged as a `Notify` effect, whether or not that callback is registered.
- RecorderService.AudioRecorderService.StartRecording: each `await` is taken as atomic. A second `startRecording` while the first is still waiting (when `isRecording` is still false) is not modelled.
- RecorderService.AudioRecorderService.StartRecording: failures of the `MediaRecorder` constructor and of `start` are not modelled, nor are the audio constraints and the bit rate.
- RecorderService.AudioRecorderService.ConnectWebSocket: an error event is taken to leave the socket closed, and the timeout to leave it connecting. An error after the socket has opened does not reject, and it is not modelled.
- RecorderService.Dispatch: a `message` field that is neither a string nor absent is not represented.
- RecorderService.CountdownStart: the duration is an integer number of milliseconds.
- Routing.App.Navigate: the pushed path is taken to be the new location path, so query strings and fragments are not modelled. React's rendering and the removal of the `popstate` listener on unmount are not modelled either.

# ScribeAI recording pipeline — a Dafny model

ScribeAI records a meeting in the browser and transcribes it live. The browser hook
`useAudioStream` runs a small XState recorder machine: IDLE, RECORDING, PAUSED,
PROCESSING, COMPLETED. It slices the audio into one-second chunks and sends each one
to a Socket.io server as an `audio-stream` event. The server keeps one FIFO buffer per
session. It transcribes one chunk at a time with Gemini and stores the non-empty text as
a transcript segment. The tokens and the finished segment are broadcast to the session's
room. On `stop-session` the server joins the stored segments with newlines, has Gemini
summarise them, marks the session COMPLETED and drops the session's buffer.

The project has six modules:

- `Common.dfy` (`Common`): `Option`, `Result`, bytes, and a thrown JavaScript value
  (`Thrown`: an `Error` with a message, a bare string, or anything else).
- `Text.dfy` (`Text`): ECMAScript `trim`, left-to-right `+=` accumulation, and
  `join("\n")`. For lines without a newline, `split("\n")` undoes the join. A segment
  can itself contain newlines (a model reply with speaker hints), and then it cannot.
- `Gemini.dfy` (`Gemini`): `streamGeminiTranscription` and `summarizeTranscript`.
  - The model's response stream is a parameter: the text pieces it yields, and the
    fault it raises after them, if any.
  - A summary call is given as the reply it gets back.
  - The accumulation loop is a method, proved against `TranscriptionOf`.
- `RecorderMachine.dfy` (`RecorderMachine`): the recorder machine's transition table as
  a pure `Step` function. Also the SYNC handler as written (see Findings).
- `AudioStreamHook.dfy` (`AudioStreamHook`): the hook as a class.
  - Its fields are the machine status and the `MediaRecorder` state, plus the tokens,
    transcript, summary and error React state.
  - It also holds the one local-storage entry and the log of events sent to the server.
  - Each callback and control is a method with a field-level `modifies` frame.
  - Its invariant is that the persisted entry names the current status.
- `SocketServer.dfy` (`SocketServer`): the server as a class.
  - `Server` holds the `sessionBuffers` map from session id to a `SessionBuffer` object.
    Buffers are objects, so a drain and the map share them, as in the source.
  - It also holds the store (sessions and transcript segments) and the log of every
    emission, with its target (the room, or the sending socket).
  - Each buffer carries ghost history: every chunk that arrived, every chunk finished,
    and the one in flight. Its invariant is FIFO order, with every chunk accounted for in
    that buffer object's bookkeeping: `arrived == finished + inFlight + queue`. The
    `processing` flag is set exactly while a chunk is in flight. This does not mean every
    chunk is transcribed: a chunk left in a buffer whose entry `stop-session` deleted stays
    queued there for good (`StrandedChunkAfterStop`).
  - `processQueue` is split at its `await`. `ProcessQueue` runs the synchronous head
    and returns the `Drain` it started. `FinishDrain` runs the rest once the
    transcription has settled. `RunScheduledDrain` is the microtask the `finally`
    schedules.
  - In `FinishDrain` the transcription call is represented by the two values
    `Gemini.StreamTranscription` is proved to produce: its `onToken` calls and its
    outcome.
  - `stop-session` is split in the same way, into `BeginStop` and `FinishStop`.
    Events from other sockets may interleave between the two halves.

## Model

| member | source | states |
|---|---|---|
| Common.MessageOr | server/socket.ts:76-78 | An `Error` contributes its message; any other thrown value gives the fallback |
| Text.Trim | lib/gemini.ts:54 | No whitespace is left at either end, the result is no longer than the input, and it is empty exactly when the input is all whitespace |
| Text.TrimIsSlice | lib/gemini.ts:54 | What `trim` keeps is one slice of its input with only whitespace before and after it |
| Text.TrimIdempotent | lib/gemini.ts:54 | Trimming twice equals trimming once |
| Text.TrimmedIsFixed | lib/gemini.ts:70 | `trim` leaves a string that is already trimmed unchanged |
| Text.Concat | lib/gemini.ts:49 | Left-to-right `+=` of the pieces (a definition; `ConcatNonEmpty` states its property) |
| Text.NonEmpty | lib/gemini.ts:48 | Every non-empty piece is kept, as often as it occurs, and nothing else (equal multisets with the empty string removed); nothing is dropped when none is empty. `NonEmptyAppend` fixes the order |
| Text.NonEmptyAppend | lib/gemini.ts:46-51 | Filtering distributes over concatenation, so the kept pieces come out in stream order |
| Text.ConcatNonEmpty | lib/gemini.ts:46-52 | Skipping empty pieces does not change the accumulated text |
| Text.LineEnd | server/socket.ts:169 | The index of the first newline, with no newline before it |
| Text.SplitLines | server/socket.ts:169 | Splitting yields at least one line |
| Text.JoinLines | server/socket.ts:169 | `join("\n")` (a definition; `JoinLinesSnoc`, `SplitJoinLines` and `JoinLinesEmptyIff` state its properties) |
| Text.JoinLinesSnoc | server/socket.ts:169 | Joining one more line adds a newline and that line at the end |
| Text.SplitLinesCons | server/socket.ts:169 | A first line without a newline splits off whole from the rest |
| Text.SplitJoinLines | server/socket.ts:169 | Lines without a newline come back unchanged when the joined text is split. So the transcript encodes the segment list faithfully only when no segment contains a newline; a segment may contain one |
| Text.JoinLinesEmptyIff | server/socket.ts:169 | Non-empty lines join to the empty string exactly when there are none |
| Gemini.MimeTypeOrDefault | lib/gemini.ts:20 | A missing media type becomes `audio/webm`; a given one is used as is |
| Gemini.TranscriptionOf | lib/gemini.ts:43-54 | Fails exactly when the stream fails, with the stream's fault. Otherwise the text is trimmed, and it is empty exactly when all the streamed text was whitespace |
| Gemini.StreamTranscription | lib/gemini.ts:43-54 | The loop calls `onToken` with exactly the non-empty pieces, in order, even when the stream later fails. It resolves to `TranscriptionOf(stream)`, which is the trimmed concatenation of those tokens |
| Gemini.SummarizeTranscript | lib/gemini.ts:60-71 | An empty transcript gets the canned text whatever the model would answer. Otherwise it succeeds exactly when the model answers, with that answer trimmed, and a fault passes through |
| RecorderMachine.Listed | hooks/useAudioStream.ts:56-81 | A state lists no SYNC transition; every listed transition is an edge of the designed lifecycle or a RESET to IDLE, and every state but IDLE lists RESET |
| RecorderMachine.SyncTarget | hooks/useAudioStream.ts:88-112 | A SYNC names its target when the name is one of the four persisted statuses; any other SYNC targets IDLE |
| RecorderMachine.StepAsWritten | hooks/useAudioStream.ts:88-112 | The machine as written: every SYNC ends in IDLE, and every other event behaves as in `Step` |
| RecorderMachine.Step | hooks/useAudioStream.ts:55-113 | The machine with the SYNC guards as intended (see Findings). RESET always ends in IDLE. SYNC of one of the four non-IDLE names ends in the named state; any other SYNC ends in IDLE. Every other event either leaves the state alone or takes one edge of the designed lifecycle |
| RecorderMachine.StartOnlyFromIdleOrCompleted | hooks/useAudioStream.ts:56-81 | START records from IDLE and from COMPLETED and is ignored in every other state |
| RecorderMachine.PauseOnlyFromRecording | hooks/useAudioStream.ts:56-81 | PAUSE takes RECORDING to PAUSED and is ignored in every other state |
| RecorderMachine.ResumeOnlyFromPaused | hooks/useAudioStream.ts:56-81 | RESUME takes PAUSED to RECORDING and is ignored in every other state |
| RecorderMachine.ProcessFromRecordingOrPaused | hooks/useAudioStream.ts:56-81 | PROCESS takes RECORDING and PAUSED to PROCESSING and is ignored in every other state |
| RecorderMachine.CompleteFromRecordingOrProcessing | hooks/useAudioStream.ts:56-81 | COMPLETE takes RECORDING and PROCESSING to COMPLETED and is ignored in every other state |
| RecorderMachine.StepFollowsTable | hooks/useAudioStream.ts:55-113 | Apart from RESET and SYNC, a step is the transition the current state lists, and an event it does not list leaves the state unchanged |
| RecorderMachine.ProcessingAndPausedIgnoreUnlisted | hooks/useAudioStream.ts:67-77 | PROCESSING ignores everything but COMPLETE, RESET and SYNC; PAUSED ignores COMPLETE |
| RecorderMachine.DesignEdgesAreImplemented | hooks/useAudioStream.ts:55-82 | Every edge of the designed lifecycle is taken by some non-SYNC event |
| RecorderMachine.SyncRestoresPersisted | hooks/useAudioStream.ts:84-112 | A SYNC carrying a persisted status name restores that status from any state |
| RecorderMachine.PersistedStatusLostAsWritten | hooks/useAudioStream.ts:88-112 | With the guards called as XState 5 calls them, a SYNC to RECORDING lands in IDLE; the corrected `Step` lands in RECORDING |
| AudioStreamHook.NormalizeError | hooks/useAudioStream.ts:238-242 | An `Error` gives its message and a thrown string gives itself; anything else gives the fallback |
| AudioStreamHook.TranscriptionErrorText | hooks/useAudioStream.ts:172-177 | A string payload is shown as is, an object's message (or the fallback when it has none) for an object, and the fallback for anything else |
| AudioStreamHook.AudioStream.Mount | hooks/useAudioStream.ts:118-200 | A fresh hook starts IDLE with empty lists and a join request sent. A saved entry is sent as SYNC, and the status is then persisted. SYNC is taken by the corrected `Step`; as written (`StepAsWritten`) the hook would land in IDLE |
| AudioStreamHook.AudioStream.Send | hooks/useAudioStream.ts:118-119 | The status becomes `Step(status, e)` and the persisted entry follows it |
| AudioStreamHook.AudioStream.SetupRecorder | hooks/useAudioStream.ts:205-236 | A new recorder is recording and START is sent to the machine |
| AudioStreamHook.AudioStream.StartMicrophone | hooks/useAudioStream.ts:247-255 | Granted: the error is cleared and recording starts. Refused: the normalised error (microphone fallback) is shown and nothing else changes |
| AudioStreamHook.AudioStream.StartTabShare | hooks/useAudioStream.ts:257-285 | A share with no audio track fails with the "no tab audio" message. A refusal shows the normalised error (tab fallback). Otherwise recording starts |
| AudioStreamHook.AudioStream.Pause | hooks/useAudioStream.ts:290-295 | Acts only when the recorder is recording: it is paused and PAUSE is sent; otherwise nothing changes |
| AudioStreamHook.AudioStream.Resume | hooks/useAudioStream.ts:297-302 | Acts only when the recorder is paused: it records again and RESUME is sent; otherwise nothing changes |
| AudioStreamHook.AudioStream.Stop | hooks/useAudioStream.ts:304-313 | Does nothing without a recorder. Otherwise PROCESS is sent at once, the recorder ends inactive, the call waits for `onstop`, and nothing is emitted yet |
| AudioStreamHook.AudioStream.RecorderStopped | hooks/useAudioStream.ts:227-230 | `onstop` releases a waiting `stop`, which then emits `stop-session` exactly once |
| AudioStreamHook.AudioStream.DataAvailable | hooks/useAudioStream.ts:212-225 | An empty slice is dropped. A non-empty one is sent once, with the timecode (or the clock) as its start and start plus its size as its end |
| AudioStreamHook.AudioStream.OnToken | hooks/useAudioStream.ts:153-155 | Tokens are appended at the end; the earlier ones are unchanged |
| AudioStreamHook.AudioStream.OnChunk | hooks/useAudioStream.ts:157-159 | Segments are appended at the end; the earlier ones are unchanged |
| AudioStreamHook.AudioStream.OnBufferOverflow | hooks/useAudioStream.ts:161-163 | Shows the backlog warning without touching the status |
| AudioStreamHook.AudioStream.OnProcessing | hooks/useAudioStream.ts:165 | The machine takes PROCESS |
| AudioStreamHook.AudioStream.OnCompleted | hooks/useAudioStream.ts:167-170 | The summary is stored and the machine takes COMPLETE |
| AudioStreamHook.AudioStream.OnTranscriptionError | hooks/useAudioStream.ts:172-177 | The error shown is `TranscriptionErrorText` of the payload |
| AudioStreamHook.AudioStream.OnConnect | hooks/useAudioStream.ts:147 | Clears the error |
| AudioStreamHook.AudioStream.OnConnectError | hooks/useAudioStream.ts:149-151 | Shows the error's message, or "Unable to connect" |
| AudioStreamHook.Reload | hooks/useAudioStream.ts:184-200 | A hook mounted again with what the previous one persisted comes back in the previous hook's status. This holds of the corrected `Step`; as written, every reload lands in IDLE (`PersistedStatusLostAsWritten`) |
| AudioStreamHook.StopThenRecorderStops | hooks/useAudioStream.ts:304-316 | A full stop sends PROCESS to the machine and emits exactly one `stop-session` |
| SocketServer.ChunkMimeType | server/socket.ts:20 | A missing media type defaults to `audio/webm`; a given one is kept |
| SocketServer.ValidJoin | server/socket.ts:9-13 | The join schema's checks: a session id and a user id that are strings (a predicate) |
| SocketServer.ValidChunk | server/socket.ts:15-21 | The chunk schema's checks: string ids, non-negative `start` and `end`, and a media type that is a string or missing (a predicate) |
| SocketServer.ValidStop | server/socket.ts:23-27 | The stop schema's checks: string ids, and a well-formed URL when one is given (a predicate) |
| SocketServer.TextsOf | server/socket.ts:164-169 | A text is listed exactly when the session has a segment with it, and there are never more texts than segments; with `TextsOfAppend` this fixes the order and the multiplicity |
| SocketServer.TranscriptOf | server/socket.ts:164-169 | The session's segment texts joined by newlines (a definition; `TranscriptOfAppend` and `TranscriptEmptyIffNoSegments` state its properties) |
| SocketServer.TranscriptOfAppend | server/socket.ts:67-72 | A session's first segment is its whole transcript; each later one adds a newline and its text at the end |
| SocketServer.TextsOfAppend | server/socket.ts:67-72 | A new segment extends only its own session's list, at the end |
| SocketServer.TextsOfNonEmpty | server/socket.ts:164-169 | Texts of non-empty segments are non-empty, and a session has none exactly when no segment is its own |
| SocketServer.TranscriptEmptyIffNoSegments | server/socket.ts:169-170 | The transcript is empty, and so the canned summary is used, exactly when the session stored no segment |
| SocketServer.TokenEmissions | server/socket.ts:61-63 | One token event per `onToken` call, to the session's room, in call order |
| SocketServer.ClosingEmissions | server/socket.ts:66-78 | A chunk closes with at most one event, to the session's room, and never a token event. It is `transcription-chunk` with a text exactly when that text is the stored segment; `transcription-error` exactly when the stream failed or a non-empty text failed to be written; and nothing exactly when the text was empty |
| SocketServer.StoredSegments | server/socket.ts:66-72 | One segment, for the session with the text, exactly when the text is non-empty and the write succeeded; otherwise none |
| SocketServer.DrainEmissions | server/socket.ts:58-78 | The token events, then what closes the chunk (a definition; `DrainEmissionsOrder` states its properties) |
| SocketServer.DrainSegments | server/socket.ts:58-74 | A drain stores at most one segment, for its session, trimmed and non-empty. It stores one exactly when the stream succeeded with some non-whitespace text and the write succeeded |
| SocketServer.DrainEmissionsOrder | server/socket.ts:58-78 | Every token event precedes the event that closes the chunk, carries a streamed piece in order, and goes to the session's room |
| SocketServer.SessionBuffer.constructor | server/socket.ts:38 | A new buffer is empty, idle, and has no history |
| SocketServer.SessionBuffer.Push | server/socket.ts:138 | The chunk joins the end of the queue and of the arrival history; the FIFO invariant holds |
| SocketServer.SessionBuffer.Settle | server/socket.ts:79-80 | The chunk in flight becomes finished and the flag clears; the FIFO invariant holds |
| SocketServer.Server.constructor | server/socket.ts:34 | A new server has no buffers, sessions, segments or emissions |
| SocketServer.Server.GetOrCreateBuffer | server/socket.ts:36-42 | Returns the session's existing buffer unchanged, or a fresh empty one registered under the id; other entries are untouched |
| SocketServer.Server.ProcessQueue | server/socket.ts:44-56 | No-op when the buffer is missing, busy or empty. Otherwise it takes the head of the queue and marks it in flight, and no other buffer changes |
| SocketServer.Server.FinishDrain | server/socket.ts:58-84 | Emits `DrainEmissions` and stores `DrainSegments`. The chunk is then finished and the flag cleared, and another drain is scheduled exactly when the queue is non-empty |
| SocketServer.Server.RunScheduledDrain | server/socket.ts:81-83 | The rescheduled drain is for the same session and reuses the media type the chain started with. It starts exactly when the session's current buffer is idle with a non-empty queue, and then takes that buffer's oldest chunk into flight, leaving the history alone; otherwise the buffer is unchanged |
| SocketServer.Server.RecordTranscription | server/socket.ts:58-78 | The room receives `DrainEmissions`, and the store gains `DrainSegments`: the tokens as streamed, then what closes the chunk |
| SocketServer.Server.CloseChunk | server/socket.ts:66-78 | Appends `ClosingEmissions` and `StoredSegments` for the transcription's outcome |
| SocketServer.Server.SettleBuffer | server/socket.ts:79-80 | Settles one buffer and keeps every buffer's invariant |
| SocketServer.Server.JoinSession | server/socket.ts:97-117 | An invalid payload gets `join-error` back. A valid one upserts the session to RECORDING (its user is set only when the session is created) and answers `joined` to the sender |
| SocketServer.Server.AudioStream | server/socket.ts:119-142 | An invalid payload gets a validation error back. A chunk `Buffer.from` rejects aborts the handler and changes nothing (the frame leaves every buffer alone). A valid chunk is queued, and `buffer-overflow` (with the queue size) is emitted whenever the queue already held 32 or more. A drain starts, with the chunk's media type, exactly when the buffer was idle |
| SocketServer.Server.EnqueuedAs | server/socket.ts:126-141 | The two-state relation `AudioStream` and `Enqueue` promise for a valid chunk (a predicate). A busy buffer stays busy with the same chunk in flight, and no chunk is marked finished |
| SocketServer.Server.Enqueue | server/socket.ts:126-141 | As for `AudioStream` with a valid chunk: the chunk is kept at the end of the session's queue, the overflow warning goes out when 32 or more were already queued, and an idle buffer starts draining with the chunk's media type. A busy buffer keeps its flag and its chunk in flight |
| SocketServer.Server.Admit | server/socket.ts:132-138 | The session's buffer (created if needed) gains the chunk at the end of its queue whatever its length. The sender is warned, with the length before the push, exactly when that length was at least 32. The flag, the chunk in flight and the finished history are unchanged |
| SocketServer.Server.BeginStop | server/socket.ts:144-169 | An invalid payload gets `session-error` back. Otherwise `processing` goes to the room first and the session becomes PROCESSING and ended (the URL is replaced only when given). The result is the transcript of its segments |
| SocketServer.Server.FinishStop | server/socket.ts:170-181 | When the summary succeeds, the session is COMPLETED with it, `completed` goes to the room, and the session's buffer is deleted. A failed summary, or a session with no record, changes nothing |
| SocketServer.SecondDrainAfterStop | server/socket.ts:132-181 | A chunk that arrives after `stop-session` deleted a buffer mid-drain starts a second drain for the same session on a new buffer: two chunks of one session are in flight at once |
| SocketServer.InFlightAndQueued | server/socket.ts:126-141 | Two chunks for a session with no buffer: the first goes into flight and the second waits in the same buffer |
| SocketServer.StrandedChunkAfterStop | server/socket.ts:79-83 | A stop that completes while one chunk is in flight and another is queued deletes the buffer's entry. The rescheduled drain then finds no buffer, and the queued chunk stays in the orphaned buffer, never transcribed |

## Left out

- Socket.io transport, rooms, CORS, reconnection and `disconnect` are left out. Emissions are a log of (target, event) pairs and are not delivered.
- The clients' socket identities are plain numbers.
- Prisma is abstracted to a map of sessions and a list of segments in creation order.
  - Ties in `createdAt` are not modelled.
  - A failed segment write is a parameter of `FinishDrain`, because it is caught there.
  - Failures of the writes and reads in the join and stop handlers are left out: they are not caught, so the handler's promise rejects, with effects outside the code.
  - A session update for a missing session is modelled as aborting the handler.
- `stop-session` for a session that does not exist aborts after the `processing` event, which is what the failing update does.
- The Gemini SDK, prompts, base64 encoding and model selection are left out. A transcription is given as its stream of text pieces and an optional fault; a summary as its reply.
- The zod schemas are reduced to the checks they make. `Field` stands for present, missing or mistyped. `Url.wellFormed` stands for `z.string().url()`. `ValidationIssues` stands for the flattened error.
- `Buffer.from(chunk)` is reduced to an optional byte sequence (`None`: a value it rejects).
- Browser media (`getUserMedia`, `getDisplayMedia`, tracks, the one-second timeslice, blob reading) is left out. Acquisition results and recorder callbacks are method parameters and calls.
- `beforeunload` and its unconditional `stop-session` are left out.
- AudioStreamHook.AudioStream.DataAvailable: `event.timecode` and `Date.now()` are doubles in the hook; the model takes them as integers (milliseconds), so a fractional timecode is not modelled.
- The window of the asynchronous `arrayBuffer()` read is left out: `DataAvailable` sends at once, and it assumes the socket exists.
- Local storage is one entry per hook, and JSON parsing is not modelled: a saved entry is given as the status string it holds, or `None` when it has none.
- AudioStreamHook.AudioStream.Mount: an entry that is not valid JSON, which would throw inside the effect, is not modelled.
- String lengths and indices are over code points, not UTF-16 code units.
- Concurrency is modelled as interleaving at two `await`s only: the transcription at server/socket.ts:59 (`ProcessQueue` / `FinishDrain`) and the summary at server/socket.ts:170 (`BeginStop` / `FinishStop`). Other events may run between the halves. Every other `await` is merged into the step around it, so the orders that need an event in between are not produced:
  - the `for await` at lib/gemini.ts:46: all the tokens of a chunk and what closes it are emitted in one step (`RecordTranscription`), so no other event falls between two tokens;
  - the segment write at server/socket.ts:67 and the emit at :73 happen in one step (`CloseChunk`);
  - the session update at server/socket.ts:155 and the segment read at :164 happen in one step (`BeginStop`), so the transcript is the segments stored when the session turns PROCESSING. In the source a segment stored between the two awaits would be in the transcript; in the model no segment can be stored between them;
  - the update at server/socket.ts:172, the emit and the buffer deletion happen in one step (`FinishStop`);
  - the upsert at server/socket.ts:106 and the `joined` reply happen in one step (`JoinSession`);
  - the media requests and `setupMediaRecorder` at hooks/useAudioStream.ts:249-274 are given as their results (`StartMicrophone`, `StartTabShare`).
- AudioStreamHook.AudioStream.RecorderStopped: the model's `stop-session` follows every chunk, because `DataAvailable` sends at once; in the hook a last slice may still wait on `arrayBuffer()` (hooks/useAudioStream.ts:215) and reach the server after `stop-session`.
- RecorderMachine.Step: the hook (`Mount`, `Send`, `Reload`) runs the machine with the SYNC guards as intended. The machine as written is `StepAsWritten`, under which every SYNC, and so every reload, lands in IDLE (see Findings).
- SocketServer.Server.FinishDrain: the caller supplies the stream and a write fault, and the transcription is assumed to settle. A call into Gemini that never settles (which would keep the buffer busy forever) is not modelled.
- SocketServer.Server.AudioStream: `start`, `end` and the payload's `userId` are validated but are not used by the server, as in the source.
- UI components, authentication, the HTTP server and the database schema are not part of this model.

The model follows the code at these points, where the evident intent differs:

- `buffer-overflow` is emitted for every chunk that arrives while 32 or more are queued, not once per crossing. The chunk is queued anyway.
- `stop-session` neither waits for the buffer to drain nor rejects later chunks. Deleting the buffer mid-drain lets a second drain start for the same session (`SecondDrainAfterStop`). So at most one chunk is in flight per buffer object, not per session id.
- A drain chain keeps the media type of the chunk that started it.
- A transcription that is empty after trimming is neither stored nor emitted.
- PAUSED ignores COMPLETE.
- A failed summary leaves the session PROCESSING, keeps its buffer, and emits no `completed`.
- A chunk still queued when `stop-session` deletes the buffer's entry is never transcribed. The drain's `finally` reschedules by session id, and `processQueue` finds no entry (`StrandedChunkAfterStop`). The orphaned buffer still holds the chunk in its queue.

## Findings

| source | as written | input that shows it | evidently intended | confidence | as-written member | corrected member |
|---|---|---|---|---|---|---|
| hooks/useAudioStream.ts:88-112 | Each SYNC guard reads the event from its second parameter. XState 5 calls an inline guard with `({ context, event }, params)`, so that parameter is undefined, every guard is false, and every SYNC takes the fallback to IDLE | a page reload while recording: the saved entry is `{"status":"RECORDING"}` and the mount sends `SYNC` with status RECORDING, which lands in IDLE | the guards read the event from the first argument, so SYNC restores the saved status | not executed; medium (depends on the XState 5 guard calling convention) | RecorderMachine.PersistedStatusLostAsWritten | RecorderMachine.SyncRestoresPersisted |

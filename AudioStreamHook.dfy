/** The client side of a recording session: the state the `useAudioStream` hook keeps
    (machine status, the media-recorder reference, the pending stop continuation, the token
    and transcript lists, the persisted status) and the operations that change it. The
    browser's MediaRecorder is reduced to its `state`; the socket to the log of what the
    hook sends; local storage to the one entry this session writes. */
module AudioStreamHook {
  import opened Common
  import opened RecorderMachine

  /** `MediaRecorder.state`. */
  datatype NativeState = NativeInactive | NativeRecording | NativePaused

  /** An event the hook emits on its socket. */
  datatype Outbound =
    | JoinSession(sessionId: string, userId: string)
    | AudioChunk(sessionId: string, userId: string, chunk: Bytes, start: int, end: int, mimeType: string)
    | StopSession(sessionId: string, userId: string)

  /** The payload of an incoming `transcription-error`: a string, an object (with or
      without a `message`), or neither. */
  datatype ErrorPayload = PayloadString(text: string) | PayloadObject(message: Option<string>) | PayloadOther

  /** How `getUserMedia` settled. */
  datatype MicAcquisition = MicGranted | MicFailed(err: Thrown)

  /** How `getDisplayMedia` settled: a stream with this many audio tracks, or a fault. */
  datatype TabAcquisition = TabGranted(audioTracks: nat) | TabFailed(err: Thrown)

  const MicFallback := "Microphone permission denied."
  const TabFallback := "Unable to capture tab audio. Ensure 'Share audio' is enabled."
  const NoTabAudio := "Browser provided no tab audio. Enable 'Share audio'."
  const BacklogMessage := "Processing backlog detected."
  const ConnectFallback := "Unable to connect"
  const TranscriptionFallback := "Transcription failed"

  /** `normalizeError`: the message of an `Error`, a thrown string as it is, and the
      fallback for anything else. */
  function NormalizeError(err: Thrown, fallback: string): (r: string)
    ensures err.ErrorObject? ==> r == err.message
    ensures err.ThrownString? ==> r == err.text
    ensures err.ThrownOther? ==> r == fallback
  {
    match err
    case ErrorObject(m) => m
    case ThrownString(t) => t
    case ThrownOther => fallback
  }

  /** The text the `transcription-error` listener shows. */
  function TranscriptionErrorText(p: ErrorPayload): (r: string)
    ensures p.PayloadString? ==> r == p.text
    ensures p.PayloadObject? && p.message.Some? ==> r == p.message.value
    ensures p.PayloadOther? || (p.PayloadObject? && p.message.None?) ==> r == TranscriptionFallback
  {
    match p
    case PayloadString(t) => t
    case PayloadObject(m) => if m.Some? then m.value else TranscriptionFallback
    case PayloadOther => TranscriptionFallback
  }

  class AudioStream {
    const sessionId: string
    const userId: string

    /** The machine's current state. */
    var status: Status
    /** `mediaRecorderRef.current`: no recorder yet, or the state of the one set up last. */
    var recorder: Option<NativeState>
    /** The browser owes a `stop` event for a recorder that was told to stop. */
    var stopEventDue: bool
    /** `pendingResolveRef` holds the continuation of a `stop()` call awaiting that event. */
    var stopWaiting: bool
    var tokens: seq<string>
    var transcript: seq<string>
    var summary: Option<string>
    var error: Option<string>
    /** The status saved in local storage under this session's key. */
    var persisted: Option<string>
    /** Everything emitted on the socket, in order. */
    var sent: seq<Outbound>

    /** Every status the machine reaches is saved for the next reload. */
    ghost predicate Valid()
      reads this
    {
      persisted == Some(StatusName(status))
    }

    /** Mounting the hook: join the session's room, then, when local storage holds an
        entry for this session, replay its status through SYNC (`saved` is that entry's
        `status` field; `None` inside means it was missing or not a string). */
    constructor Mount(sessionId: string, userId: string, saved: Option<Option<string>>)
      ensures Valid()
      ensures this.sessionId == sessionId && this.userId == userId
      ensures status == (if saved.Some? then Step(Idle, Sync(saved.value)) else Idle)
      ensures sent == [JoinSession(sessionId, userId)]
      ensures recorder.None? && !stopEventDue && !stopWaiting
      ensures tokens == [] && transcript == [] && summary.None? && error.None?
    {
      this.sessionId := sessionId;
      this.userId := userId;
      recorder := None;
      stopEventDue, stopWaiting := false, false;
      tokens, transcript := [], [];
      summary, error := None, None;
      sent := [JoinSession(sessionId, userId)];
      var s := Idle;
      if saved.Some? {
        s := Step(s, Sync(saved.value));
      }
      status := s;
      persisted := Some(StatusName(s));
    }

    /** `send(e)` followed by the effect that saves every new status. */
    method Send(e: Event)
      modifies this`status, this`persisted
      ensures Valid()
      ensures status == Step(old(status), e)
    {
      status := Step(status, e);
      persisted := Some(StatusName(status));
    }

    /** `setupMediaRecorder`: a new recorder starts (one-second slices) and START is sent. */
    method SetupRecorder()
      modifies this`recorder, this`status, this`persisted
      ensures Valid()
      ensures recorder == Some(NativeRecording)
      ensures status == Step(old(status), Start)
    {
      recorder := Some(NativeRecording);
      Send(Start);
    }

    /** `startMicrophone`: on success the error is cleared and recording starts; on
        failure the error is shown and nothing else changes. */
    method StartMicrophone(acq: MicAcquisition)
      requires Valid()
      modifies this`recorder, this`status, this`persisted, this`error
      ensures Valid()
      ensures acq.MicGranted? ==> error.None? && recorder == Some(NativeRecording) && status == Step(old(status), Start)
      ensures acq.MicFailed? ==>
                error == Some(NormalizeError(acq.err, MicFallback)) && recorder == old(recorder) && status == old(status)
    {
      match acq
      case MicGranted =>
        error := None;
        SetupRecorder();
      case MicFailed(err) =>
        error := Some(NormalizeError(err, MicFallback));
    }

    /** `startTabShare`: a shared tab without an audio track is refused with a dedicated
        message; otherwise as for the microphone. */
    method StartTabShare(acq: TabAcquisition)
      requires Valid()
      modifies this`recorder, this`status, this`persisted, this`error
      ensures Valid()
      ensures acq.TabGranted? && acq.audioTracks > 0 ==>
                error.None? && recorder == Some(NativeRecording) && status == Step(old(status), Start)
      ensures acq.TabGranted? && acq.audioTracks == 0 ==>
                error == Some(NoTabAudio) && recorder == old(recorder) && status == old(status)
      ensures acq.TabFailed? ==>
                error == Some(NormalizeError(acq.err, TabFallback)) && recorder == old(recorder) && status == old(status)
    {
      match acq
      case TabGranted(n) =>
        if n == 0 {
          error := Some(NormalizeError(ErrorObject(NoTabAudio), TabFallback));
        } else {
          error := None;
          SetupRecorder();
        }
      case TabFailed(err) =>
        error := Some(NormalizeError(err, TabFallback));
    }

    /** `pause`: only a recorder that is actually recording is paused, and only then is
        PAUSE sent. */
    method Pause()
      requires Valid()
      modifies this`recorder, this`status, this`persisted
      ensures Valid()
      ensures old(recorder) == Some(NativeRecording) ==>
                recorder == Some(NativePaused) && status == Step(old(status), RecorderMachine.Pause)
      ensures old(recorder) != Some(NativeRecording) ==> recorder == old(recorder) && status == old(status)
    {
      if recorder == Some(NativeRecording) {
        recorder := Some(NativePaused);
        Send(RecorderMachine.Pause);
      }
    }

    /** `resume`: only a paused recorder is resumed, and only then is RESUME sent. */
    method Resume()
      requires Valid()
      modifies this`recorder, this`status, this`persisted
      ensures Valid()
      ensures old(recorder) == Some(NativePaused) ==>
                recorder == Some(NativeRecording) && status == Step(old(status), RecorderMachine.Resume)
      ensures old(recorder) != Some(NativePaused) ==> recorder == old(recorder) && status == old(status)
    {
      if recorder == Some(NativePaused) {
        recorder := Some(NativeRecording);
        Send(RecorderMachine.Resume);
      }
    }

    /** The synchronous part of `stop`: without a recorder nothing happens; otherwise
        PROCESS is sent at once, the call starts waiting for the recorder's `stop` event,
        and a recorder that is not already inactive is stopped (which makes the browser
        owe that event). Nothing is emitted yet. */
    method Stop()
      requires Valid()
      modifies this`recorder, this`status, this`persisted, this`stopEventDue, this`stopWaiting
      ensures Valid()
      ensures sent == old(sent)
      ensures old(recorder).None? ==>
                recorder == old(recorder) && status == old(status)
                && stopEventDue == old(stopEventDue) && stopWaiting == old(stopWaiting)
      ensures old(recorder).Some? ==>
                recorder == Some(NativeInactive) && status == Step(old(status), Process) && stopWaiting
                && stopEventDue == (old(stopEventDue) || old(recorder) != Some(NativeInactive))
    {
      if recorder.None? {
        return;
      }
      Send(Process);
      stopWaiting := true;
      if recorder != Some(NativeInactive) {
        recorder := Some(NativeInactive);
        stopEventDue := true;
      }
    }

    /** The recorder's `onstop` fires: the waiting `stop` call resumes and only now emits
        `stop-session`. In this model a slice is sent as soon as it is available, so the
        stop follows every chunk; the hook itself sends a slice only once its bytes have
        been read, which may be after `stop-session`. */
    method RecorderStopped()
      requires Valid()
      modifies this`stopEventDue, this`stopWaiting, this`sent
      ensures Valid()
      ensures !old(stopEventDue) ==> sent == old(sent) && stopEventDue == old(stopEventDue) && stopWaiting == old(stopWaiting)
      ensures old(stopEventDue) ==> !stopEventDue && !stopWaiting
      ensures old(stopEventDue) && old(stopWaiting) ==> sent == old(sent) + [StopSession(sessionId, userId)]
      ensures old(stopEventDue) && !old(stopWaiting) ==> sent == old(sent)
    {
      if !stopEventDue {
        return;
      }
      stopEventDue := false;
      if stopWaiting {
        stopWaiting := false;
        sent := sent + [StopSession(sessionId, userId)];
      }
    }

    /** `ondataavailable`: a non-empty slice is sent as an `audio-stream` event; its
        `end` is its start time plus its size in bytes. `nowStart` and `nowEnd` are the two
        clock readings the handler takes when the slice has no timecode. */
    method DataAvailable(data: Bytes, mimeType: string, timecode: Option<int>, nowStart: int, nowEnd: int)
      requires Valid()
      modifies this`sent
      ensures Valid()
      ensures |data| == 0 ==> sent == old(sent)
      ensures |data| > 0 ==>
                var start := if timecode.Some? then timecode.value else nowStart;
                var end := (if timecode.Some? then timecode.value else nowEnd) + |data|;
                sent == old(sent) + [AudioChunk(sessionId, userId, data, start, end, mimeType)]
    {
      if |data| == 0 {
        return;
      }
      var start := if timecode.Some? then timecode.value else nowStart;
      var end := (if timecode.Some? then timecode.value else nowEnd) + |data|;
      sent := sent + [AudioChunk(sessionId, userId, data, start, end, mimeType)];
    }

    /** `transcription-token`: appended at the end; earlier tokens stay as they are. */
    method OnToken(token: string)
      requires Valid()
      modifies this`tokens
      ensures Valid()
      ensures tokens == old(tokens) + [token]
    {
      tokens := tokens + [token];
    }

    /** `transcription-chunk`: appended at the end; earlier segments stay as they are. */
    method OnChunk(text: string)
      requires Valid()
      modifies this`transcript
      ensures Valid()
      ensures transcript == old(transcript) + [text]
    {
      transcript := transcript + [text];
    }

    /** `buffer-overflow`: shown as a backlog warning; the status is untouched. */
    method OnBufferOverflow()
      requires Valid()
      modifies this`error
      ensures Valid()
      ensures error == Some(BacklogMessage)
    {
      error := Some(BacklogMessage);
    }

    /** `processing` from the server: PROCESS is sent to the machine. */
    method OnProcessing()
      requires Valid()
      modifies this`status, this`persisted
      ensures Valid()
      ensures status == Step(old(status), Process)
    {
      Send(Process);
    }

    /** `completed` from the server: the summary is kept and COMPLETE is sent. */
    method OnCompleted(summaryText: string)
      requires Valid()
      modifies this`summary, this`status, this`persisted
      ensures Valid()
      ensures summary == Some(summaryText)
      ensures status == Step(old(status), Complete)
    {
      summary := Some(summaryText);
      Send(Complete);
    }

    /** `transcription-error`: the error is shown; the status is untouched. */
    method OnTranscriptionError(p: ErrorPayload)
      requires Valid()
      modifies this`error
      ensures Valid()
      ensures error == Some(TranscriptionErrorText(p))
    {
      error := Some(TranscriptionErrorText(p));
    }

    /** `connect` clears the error; `connect_error` shows it. */
    method OnConnect()
      requires Valid()
      modifies this`error
      ensures Valid()
      ensures error.None?
    {
      error := None;
    }

    method OnConnectError(err: Thrown)
      requires Valid()
      modifies this`error
      ensures Valid()
      ensures error == Some(MessageOr(err, ConnectFallback))
    {
      error := Some(MessageOr(err, ConnectFallback));
    }
  }

  /** Reloading the page: a hook mounted again for the same session, with what the
      previous one left in local storage, comes back in the status the previous one had. */
  method Reload(h: AudioStream) returns (h2: AudioStream)
    requires h.Valid()
    ensures h2.Valid()
    ensures h2.sessionId == h.sessionId && h2.userId == h.userId
    ensures h2.status == h.status
  {
    h2 := new AudioStream.Mount(h.sessionId, h.userId, Some(h.persisted));
    SyncRestoresPersisted(Idle, h.status);
  }

  /** A complete stop as the client performs it: while recording, `stop` sends PROCESS
      and emits nothing; once the recorder's `stop` event arrives, exactly one
      `stop-session` is emitted, after everything sent before. */
  method StopThenRecorderStops(h: AudioStream)
    requires h.Valid() && h.recorder == Some(NativeRecording) && !h.stopEventDue && !h.stopWaiting
    modifies h
    ensures h.Valid()
    ensures h.status == Step(old(h.status), Process)
    ensures h.sent == old(h.sent) + [StopSession(h.sessionId, h.userId)]
    ensures !h.stopEventDue && !h.stopWaiting && h.recorder == Some(NativeInactive)
  {
    h.Stop();
    assert h.sent == old(h.sent);
    h.RecorderStopped();
  }
}

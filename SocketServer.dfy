/** The server side of the pipeline (server/socket.ts): the per-session chunk buffers,
    the single-in-flight drain of each buffer, and the `join-session`, `audio-stream` and
    `stop-session` handlers. The database is an in-memory session table and an append-only
    segment log; the socket layer is the ordered log of what the server emits and to whom;
    the Gemini calls are the abstract answers of the Gemini module. Two `await`s split a
    handler into steps, between which other events may run: the transcription call of a
    drain (`ProcessQueue` / `FinishDrain`) and the summary call of `stop-session`
    (`BeginStop` / `FinishStop`). Every other `await` is part of the step around it. */
module SocketServer {
  import opened Common
  import opened Text
  import Gemini
  import opened RecorderMachine

  /** Queue length from which every new chunk triggers a backpressure notice. */
  const MaxQueueSize := 32
  /** The `mimeType` an `audio-stream` payload gets when it has none. */
  const ChunkDefaultMimeType := "audio/webm"
  /** The message of a transcription failure that is not an `Error`. */
  const UnknownError := "Unknown error"

  // ---------------------------------------------------------------------------
  // Payloads and their validation

  /** A field of an incoming JSON payload: absent, present with the expected type, or
      present with another type. */
  datatype Field<T> = Missing | Present(value: T) | WrongType

  datatype JoinPayload = JoinPayload(sessionId: Field<string>, userId: Field<string>)

  /** `chunk` is the bytes that `Buffer.from` makes of the payload's chunk, or `None`
      when `Buffer.from` rejects it (a number, `undefined`, ...). */
  datatype ChunkPayload = ChunkPayload(
    sessionId: Field<string>, userId: Field<string>, chunk: Option<Bytes>,
    start: Field<real>, end: Field<real>, mimeType: Field<string>)

  /** An `audioUrl` string together with whether it parses as a URL. */
  datatype Url = Url(text: string, wellFormed: bool)

  datatype StopPayload = StopPayload(sessionId: Field<string>, userId: Field<string>, audioUrl: Field<Url>)

  predicate ValidJoin(p: JoinPayload) {
    p.sessionId.Present? && p.userId.Present?
  }

  predicate ValidChunk(p: ChunkPayload) {
    && p.sessionId.Present? && p.userId.Present?
    && p.start.Present? && p.start.value >= 0.0
    && p.end.Present? && p.end.value >= 0.0
    && !p.mimeType.WrongType?
  }

  predicate ValidStop(p: StopPayload) {
    && p.sessionId.Present? && p.userId.Present?
    && (p.audioUrl.Missing? || (p.audioUrl.Present? && p.audioUrl.value.wellFormed))
  }

  function ChunkMimeType(p: ChunkPayload): (m: string)
    ensures p.mimeType.Present? ==> m == p.mimeType.value
    ensures !p.mimeType.Present? ==> m == ChunkDefaultMimeType
  {
    if p.mimeType.Present? then p.mimeType.value else ChunkDefaultMimeType
  }

  // ---------------------------------------------------------------------------
  // Store records and emitted events

  datatype SessionRecord = SessionRecord(
    userId: string, state: Status, summary: Option<string>, audioUrl: Option<string>, ended: bool)

  datatype Segment = Segment(sessionId: string, text: string)

  /** Who an event goes to: everyone in a session's room, or only the socket that sent
      the event being handled. */
  datatype Target = Room(sessionId: string) | Sender(socket: nat)

  /** `Message` is `{ message }`; `ValidationIssues` stands for zod's flattened issues. */
  datatype ErrorDetail = Message(text: string) | ValidationIssues

  datatype ServerEvent =
    | Joined(sessionId: string)
    | JoinError
    | SessionError
    | TranscriptionToken(token: string)
    | TranscriptionChunk(text: string)
    | TranscriptionError(detail: ErrorDetail)
    | BufferOverflow(size: nat)
    | ProcessingNotice(sessionId: string)
    | CompletedNotice(summary: string, transcript: string)

  datatype Emission = Emission(to: Target, event: ServerEvent)

  /** The texts of a session's stored segments, in creation order: a text is listed
      exactly when the session has a segment with it (`TextsOfAppend` fixes the order and
      the multiplicity). */
  function TextsOf(segments: seq<Segment>, sid: string): (r: seq<string>)
    ensures |r| <= |segments|
    ensures forall t :: t in r <==> Segment(sid, t) in segments
  {
    if segments == [] then []
    else
      var init, last := segments[..|segments| - 1], segments[|segments| - 1];
      assert segments == init + [last];
      TextsOf(init, sid) + (if last.sessionId == sid then [last.text] else [])
  }

  /** The transcript `stop-session` builds: the session's segment texts joined by newlines. */
  function TranscriptOf(segments: seq<Segment>, sid: string): string {
    JoinLines(TextsOf(segments, sid))
  }

  /** A new segment extends its own session's text list at the end and leaves every
      other session's alone. */
  lemma TextsOfAppend(segments: seq<Segment>, seg: Segment, sid: string)
    ensures TextsOf(segments + [seg], sid)
            == TextsOf(segments, sid) + (if seg.sessionId == sid then [seg.text] else [])
  {
    assert (segments + [seg])[..|segments|] == segments;
  }

  /** Storing a segment for a session that already has one adds a newline and its text
      at the end of the transcript; the first segment is the whole transcript. */
  lemma TranscriptOfAppend(segments: seq<Segment>, text: string, sid: string)
    ensures var before := TranscriptOf(segments, sid);
            TranscriptOf(segments + [Segment(sid, text)], sid)
            == if TextsOf(segments, sid) == [] then text else before + "\n" + text
  {
    TextsOfAppend(segments, Segment(sid, text), sid);
    if TextsOf(segments, sid) != [] {
      JoinLinesSnoc(TextsOf(segments, sid), text);
    }
  }

  /** A session's transcript is empty exactly when it has no stored segment (stored
      texts are never empty), so the canned summary is used exactly then. */
  lemma {:induction false} TranscriptEmptyIffNoSegments(segments: seq<Segment>, sid: string)
    requires forall i :: 0 <= i < |segments| ==> segments[i].text != ""
    ensures TranscriptOf(segments, sid) == "" <==> (forall i :: 0 <= i < |segments| ==> segments[i].sessionId != sid)
  {
    TextsOfNonEmpty(segments, sid);
    JoinLinesEmptyIff(TextsOf(segments, sid));
  }

  lemma {:induction false} TextsOfNonEmpty(segments: seq<Segment>, sid: string)
    requires forall i :: 0 <= i < |segments| ==> segments[i].text != ""
    ensures forall i :: 0 <= i < |TextsOf(segments, sid)| ==> TextsOf(segments, sid)[i] != ""
    ensures TextsOf(segments, sid) == [] <==> (forall i :: 0 <= i < |segments| ==> segments[i].sessionId != sid)
  {
    if segments != [] {
      var init := segments[..|segments| - 1];
      TextsOfNonEmpty(init, sid);
      if TextsOf(init, sid) == [] && segments[|segments| - 1].sessionId != sid {
        forall i | 0 <= i < |segments| ensures segments[i].sessionId != sid {
          if i < |init| { assert segments[i] == init[i]; }
        }
      }
      if TextsOf(init, sid) != [] {
        var j :| 0 <= j < |init| && init[j].sessionId == sid;
        assert segments[j] == init[j];
      }
    }
  }

  /** The events a finished transcription emits to the session's room: one token event
      per `onToken` call, then what closes the chunk. */
  function DrainEmissions(sid: string, stream: Gemini.PieceStream, storeFault: Option<Thrown>): seq<Emission> {
    TokenEmissions(sid, NonEmpty(stream.pieces)) + ClosingEmissions(sid, Gemini.TranscriptionOf(stream), storeFault)
  }

  function TokenEmissions(sid: string, tokens: seq<string>): (r: seq<Emission>)
    ensures |r| == |tokens|
    ensures forall i :: 0 <= i < |r| ==> r[i] == Emission(Room(sid), TranscriptionToken(tokens[i]))
  {
    seq(|tokens|, i requires 0 <= i < |tokens| => Emission(Room(sid), TranscriptionToken(tokens[i])))
  }

  /** What closes a chunk: the completed segment, the error that failed it (the
      transcription's or the segment write's), or nothing for an empty text. */
  function ClosingEmissions(sid: string, outcome: Result<string, Thrown>, storeFault: Option<Thrown>): (r: seq<Emission>)
    ensures |r| <= 1
    ensures forall i :: 0 <= i < |r| ==> r[i].to == Room(sid) && !r[i].event.TranscriptionToken?
    ensures r == [] <==> outcome == Ok("")
    ensures forall t :: r == [Emission(Room(sid), TranscriptionChunk(t))]
                        <==> StoredSegments(sid, outcome, storeFault) == [Segment(sid, t)]
    ensures (r != [] && r[0].event.TranscriptionError?)
            <==> outcome.Err? || (outcome.value != "" && storeFault.Some?)
  {
    match outcome
    case Err(e) => [Emission(Room(sid), TranscriptionError(Message(MessageOr(e, UnknownError))))]
    case Ok(text) =>
      if text == "" then []
      else if storeFault.Some? then [Emission(Room(sid), TranscriptionError(Message(MessageOr(storeFault.value, UnknownError))))]
      else [Emission(Room(sid), TranscriptionChunk(text))]
  }

  /** The segment a finished transcription stores: only a non-empty text whose write
      succeeded. */
  function StoredSegments(sid: string, outcome: Result<string, Thrown>, storeFault: Option<Thrown>): (r: seq<Segment>)
    ensures r != [] <==> outcome.Ok? && outcome.value != "" && storeFault.None?
    ensures r != [] ==> r == [Segment(sid, outcome.value)]
  {
    if outcome.Ok? && outcome.value != "" && storeFault.None? then [Segment(sid, outcome.value)] else []
  }

  /** The segments a drain stores: at most one, for its session, never empty, already
      trimmed, and present exactly when the stream succeeded, carried some non-whitespace
      text and the write succeeded. */
  function DrainSegments(sid: string, stream: Gemini.PieceStream, storeFault: Option<Thrown>): (r: seq<Segment>)
    ensures |r| <= 1
    ensures r != [] ==> r[0].sessionId == sid && r[0].text != "" && IsTrimmed(r[0].text)
    ensures r != [] <==> storeFault.None? && stream.fault.None? && !AllWhitespace(Concat(stream.pieces))
  {
    StoredSegments(sid, Gemini.TranscriptionOf(stream), storeFault)
  }

  /** Token events come before the event that closes the chunk, and every token event
      carries a non-empty piece of the stream, in stream order. */
  lemma DrainEmissionsOrder(sid: string, stream: Gemini.PieceStream, storeFault: Option<Thrown>)
    ensures var es := DrainEmissions(sid, stream, storeFault);
            var tokens := NonEmpty(stream.pieces);
            && |es| >= |tokens|
            && (forall i :: 0 <= i < |tokens| ==> es[i] == Emission(Room(sid), TranscriptionToken(tokens[i])))
            && (forall i :: |tokens| <= i < |es| ==> !es[i].event.TranscriptionToken?)
            && (forall i :: 0 <= i < |es| ==> es[i].to == Room(sid))
  {
    var t := TokenEmissions(sid, NonEmpty(stream.pieces));
    var c := ClosingEmissions(sid, Gemini.TranscriptionOf(stream), storeFault);
    assert forall i :: |t| <= i < |t + c| ==> (t + c)[i] == c[i - |t|];
  }

  // ---------------------------------------------------------------------------
  // The per-session buffer

  /** `{ queue, processing }`. The ghost fields record every chunk that ever arrived,
      every chunk whose transcription has finished, and the one being transcribed. */
  class SessionBuffer {
    var queue: seq<Bytes>
    var processing: bool
    ghost var arrived: seq<Bytes>
    ghost var finished: seq<Bytes>
    ghost var inFlight: Option<Bytes>

    /** FIFO: finished chunks, then the one in flight, then the queue, are exactly the
        chunks in arrival order; and the flag is set exactly while one chunk is in
        flight. */
    ghost predicate Valid()
      reads this
    {
      && arrived == finished + (if inFlight.Some? then [inFlight.value] else []) + queue
      && (processing <==> inFlight.Some?)
    }

    constructor ()
      ensures Valid()
      ensures queue == [] && !processing
      ensures arrived == [] && finished == [] && inFlight.None?
    {
      queue, processing := [], false;
      arrived, finished, inFlight := [], [], None;
    }

    /** `queue.push(chunk)`. */
    method Push(chunk: Bytes)
      requires Valid()
      modifies this
      ensures Valid()
      ensures queue == old(queue) + [chunk] && arrived == old(arrived) + [chunk]
      ensures processing == old(processing) && finished == old(finished) && inFlight == old(inFlight)
    {
      queue := queue + [chunk];
      arrived := arrived + [chunk];
    }

    /** The `finally` of a drain: the chunk in flight is done and the flag is cleared. */
    method Settle()
      requires Valid() && inFlight.Some?
      modifies this
      ensures Valid()
      ensures !processing && inFlight.None?
      ensures finished == old(finished) + [old(inFlight).value]
      ensures queue == old(queue) && arrived == old(arrived)
    {
      processing := false;
      finished := finished + [inFlight.value];
      inFlight := None;
    }
  }

  /** A transcription in flight: the session it was started for, the buffer object it
      took its chunk from (kept even if the session's entry is later replaced), the chunk
      and the media type the call uses. */
  datatype Drain = Drain(sessionId: string, buffer: SessionBuffer, chunk: Bytes, mimeType: string)

  // ---------------------------------------------------------------------------
  // The server

  class Server {
    /** `sessionBuffers`. */
    var buffers: map<string, SessionBuffer>
    /** The session table. */
    var sessions: map<string, SessionRecord>
    /** The transcript-segment table, in creation order. */
    var segments: seq<Segment>
    /** Everything emitted, in order. */
    var emitted: seq<Emission>

    /** Every buffer keeps its FIFO invariant, and every stored segment is non-empty,
        trimmed text. */
    ghost predicate Valid()
      reads this`buffers, this`segments, buffers.Values
    {
      && (forall sid :: sid in buffers ==> buffers[sid].Valid())
      && (forall i :: 0 <= i < |segments| ==> segments[i].text != "" && IsTrimmed(segments[i].text))
    }

    /** The buffer object of `sid`, as a frame. */
    function BufferFrame(sid: string): set<SessionBuffer>
      reads this
    {
      if sid in buffers then {buffers[sid]} else {}
    }

    constructor ()
      ensures Valid()
      ensures buffers == map[] && sessions == map[] && segments == [] && emitted == []
    {
      buffers, sessions, segments, emitted := map[], map[], [], [];
    }

    /** `getOrCreateBuffer`: an existing entry is returned as it is; otherwise an empty,
        idle buffer is added for `sid` and no other entry changes. */
    method GetOrCreateBuffer(sid: string) returns (b: SessionBuffer)
      requires Valid()
      modifies this`buffers
      ensures Valid()
      ensures sid in old(buffers) ==> b == old(buffers)[sid] && buffers == old(buffers)
      ensures sid !in old(buffers) ==>
                fresh(b) && buffers == old(buffers)[sid := b]
                && b.queue == [] && !b.processing && b.arrived == [] && b.inFlight.None?
    {
      if sid !in buffers {
        var created := new SessionBuffer();
        buffers := buffers[sid := created];
      }
      b := buffers[sid];
    }

    /** The synchronous part of `processQueue`, up to the transcription call. It does
        nothing when the session has no buffer or a chunk is already in flight, and
        nothing observable when the queue is empty; otherwise it raises the flag and takes
        the oldest chunk. No other buffer is touched (the frame says so). */
    method ProcessQueue(sid: string, mimeType: string) returns (d: Option<Drain>)
      requires Valid()
      modifies BufferFrame(sid)
      ensures Valid()
      ensures sid !in buffers ==> d.None?
      ensures sid in buffers && (old(buffers[sid].processing) || old(buffers[sid].queue) == []) ==>
                d.None? && unchanged(buffers[sid])
      ensures sid in buffers && !old(buffers[sid].processing) && old(buffers[sid].queue) != [] ==>
                var b := buffers[sid];
                && d == Some(Drain(sid, b, old(b.queue)[0], mimeType))
                && b.processing && b.inFlight == Some(old(b.queue)[0])
                && b.queue == old(b.queue)[1..]
                && b.arrived == old(b.arrived) && b.finished == old(b.finished)
    {
      d := None;
      if sid !in buffers {
        return;
      }
      var b := buffers[sid];
      if b.processing {
        return;
      }
      b.processing := true;
      if b.queue == [] {
        b.processing := false;
        return;
      }
      var chunk := b.queue[0];
      b.queue := b.queue[1..];
      b.inFlight := Some(chunk);
      d := Some(Drain(sid, b, chunk, mimeType));
    }

    /** The continuation of `processQueue` once the transcription call has settled
        (`stream` is what the model streamed; `storeFault` is what the segment write threw,
        if it did). Tokens are emitted as they stream; a non-empty text is stored and
        emitted; a failure is emitted and the chunk dropped. In every case the flag of the
        buffer the chunk came from is cleared, and `again` says whether another drain is
        scheduled. */
    method FinishDrain(d: Drain, stream: Gemini.PieceStream, storeFault: Option<Thrown>) returns (again: bool)
      requires Valid()
      requires d.buffer.Valid() && d.buffer.inFlight == Some(d.chunk)
      modifies this`segments, this`emitted, d.buffer
      ensures Valid() && d.buffer.Valid()
      ensures !d.buffer.processing && d.buffer.inFlight.None?
      ensures d.buffer.queue == old(d.buffer.queue) && d.buffer.arrived == old(d.buffer.arrived)
      ensures d.buffer.finished == old(d.buffer.finished) + [d.chunk]
      ensures again <==> d.buffer.queue != []
      ensures emitted == old(emitted) + DrainEmissions(d.sessionId, stream, storeFault)
      ensures segments == old(segments) + DrainSegments(d.sessionId, stream, storeFault)
    {
      RecordTranscription(d.sessionId, stream, storeFault);
      SettleBuffer(d.buffer);
      again := |d.buffer.queue| > 0;
    }

    /** The `try` and `catch` of a drain: the transcription call streams its tokens to the
        room, then the chunk is closed by its outcome. The call is represented by the two
        values `Gemini.StreamTranscription` is proved to produce: its `onToken` calls
        (`NonEmpty(stream.pieces)`) and its outcome (`Gemini.TranscriptionOf(stream)`). */
    method RecordTranscription(sid: string, stream: Gemini.PieceStream, storeFault: Option<Thrown>)
      requires Valid()
      modifies this`segments, this`emitted
      ensures Valid()
      ensures emitted == old(emitted) + DrainEmissions(sid, stream, storeFault)
      ensures segments == old(segments) + DrainSegments(sid, stream, storeFault)
    {
      var tokens := NonEmpty(stream.pieces);
      var result := Gemini.TranscriptionOf(stream);
      ghost var before := emitted;
      emitted := emitted + TokenEmissions(sid, tokens);
      CloseChunk(sid, result, storeFault);
      assert emitted == before + (TokenEmissions(sid, tokens) + ClosingEmissions(sid, result, storeFault));
    }

    /** The microtask a drain schedules: `processQueue` again for the same session, with
        the media type of the chunk that started the chain (the queue keeps bytes only). */
    method RunScheduledDrain(d: Drain) returns (next: Option<Drain>)
      requires Valid()
      modifies BufferFrame(d.sessionId)
      ensures Valid()
      ensures next.Some? ==> next.value.sessionId == d.sessionId && next.value.mimeType == d.mimeType
      ensures next.Some? <==> d.sessionId in buffers && !old(buffers[d.sessionId].processing) && old(buffers[d.sessionId].queue) != []
      ensures next.Some? ==>
                var b := buffers[d.sessionId];
                && next.value.buffer == b && next.value.chunk == old(b.queue)[0]
                && b.processing && b.inFlight == Some(old(b.queue)[0])
                && b.queue == old(b.queue)[1..]
                && b.arrived == old(b.arrived) && b.finished == old(b.finished)
      ensures next.None? && d.sessionId in buffers ==> unchanged(buffers[d.sessionId])
    {
      next := ProcessQueue(d.sessionId, d.mimeType);
    }

    /** The `finally` of a drain, on the buffer the chunk was taken from, whether or not
        that buffer is still the session's entry. */
    method SettleBuffer(b: SessionBuffer)
      requires Valid() && b.Valid() && b.inFlight.Some?
      modifies b
      ensures Valid() && b.Valid()
      ensures !b.processing && b.inFlight.None?
      ensures b.finished == old(b.finished) + [old(b.inFlight).value]
      ensures b.queue == old(b.queue) && b.arrived == old(b.arrived)
    {
      b.Settle();
      forall sid | sid in buffers ensures buffers[sid].Valid() {
        if buffers[sid] != b {
          assert old(buffers[sid].Valid());
          assert unchanged(buffers[sid]);
        }
      }
    }

    /** The body of the `try` after the transcription call, and its `catch`. */
    method CloseChunk(sid: string, outcome: Result<string, Thrown>, storeFault: Option<Thrown>)
      requires Valid()
      requires outcome.Ok? ==> IsTrimmed(outcome.value)
      modifies this`segments, this`emitted
      ensures Valid()
      ensures emitted == old(emitted) + ClosingEmissions(sid, outcome, storeFault)
      ensures segments == old(segments) + StoredSegments(sid, outcome, storeFault)
    {
      match outcome {
        case Err(e) =>
          emitted := emitted + [Emission(Room(sid), TranscriptionError(Message(MessageOr(e, UnknownError))))];
        case Ok(text) =>
          if text != "" {
            if storeFault.None? {
              segments := segments + [Segment(sid, text)];
              emitted := emitted + [Emission(Room(sid), TranscriptionChunk(text))];
            } else {
              emitted := emitted + [Emission(Room(sid), TranscriptionError(Message(MessageOr(storeFault.value, UnknownError))))];
            }
          }
      }
    }

    /** `join-session`: a valid payload bootstraps the session in RECORDING (an existing
        record keeps its owner, summary and URL but is set back to RECORDING) and is
        acknowledged to the sender; an invalid one is answered with `join-error`. */
    method JoinSession(sender: nat, p: JoinPayload)
      requires Valid()
      modifies this`sessions, this`emitted
      ensures Valid()
      ensures !ValidJoin(p) ==>
                sessions == old(sessions) && emitted == old(emitted) + [Emission(Sender(sender), JoinError)]
      ensures ValidJoin(p) ==>
                var sid := p.sessionId.value;
                && sessions == old(sessions)[sid := if sid in old(sessions) then old(sessions)[sid].(state := Recording)
                                                  else SessionRecord(p.userId.value, Recording, None, None, false)]
                && emitted == old(emitted) + [Emission(Sender(sender), Joined(sid))]
    {
      if !ValidJoin(p) {
        emitted := emitted + [Emission(Sender(sender), JoinError)];
        return;
      }
      var sid := p.sessionId.value;
      if sid in sessions {
        sessions := sessions[sid := sessions[sid].(state := Recording)];
      } else {
        sessions := sessions[sid := SessionRecord(p.userId.value, Recording, None, None, false)];
      }
      emitted := emitted + [Emission(Sender(sender), Joined(sid))];
    }

    /** `audio-stream`. An invalid payload gets `transcription-error` and changes nothing
        else; a chunk `Buffer.from` rejects aborts the handler; a valid chunk is enqueued. */
    method AudioStream(sender: nat, p: ChunkPayload) returns (d: Option<Drain>)
      requires Valid()
      modifies this`buffers, this`emitted, if ValidChunk(p) && p.chunk.Some? then BufferFrame(p.sessionId.value) else {}
      ensures Valid()
      ensures !ValidChunk(p) ==>
                d.None? && buffers == old(buffers)
                && emitted == old(emitted) + [Emission(Sender(sender), TranscriptionError(ValidationIssues))]
      ensures ValidChunk(p) && p.chunk.None? ==> d.None? && buffers == old(buffers) && emitted == old(emitted)
      ensures ValidChunk(p) && p.chunk.Some? ==> EnqueuedAs(sender, p.sessionId.value, p.chunk.value, ChunkMimeType(p), d)
    {
      d := None;
      if !ValidChunk(p) {
        emitted := emitted + [Emission(Sender(sender), TranscriptionError(ValidationIssues))];
        return;
      }
      if p.chunk.None? {
        return;
      }
      d := Enqueue(sender, p.sessionId.value, p.chunk.value, ChunkMimeType(p));
    }

    /** What enqueueing chunk `c` for `sid` did, compared with the state before: the
        session has a buffer (a fresh one if it had none); `buffer-overflow`, with the
        length before the push, went to the sender exactly when that length was at least
        32, and the chunk was kept anyway; and an idle buffer started draining its oldest
        chunk with the media type `mimeType`. */
    twostate predicate EnqueuedAs(sender: nat, sid: string, c: Bytes, mimeType: string, new d: Option<Drain>)
      reads this, buffers.Values
    {
      var q0 := if sid in old(buffers) then old(buffers[sid].queue) else [];
      var busy := sid in old(buffers) && old(buffers[sid].processing);
      && sid in buffers
      && (sid in old(buffers) ==> buffers == old(buffers))
      && (sid !in old(buffers) ==> fresh(buffers[sid]) && buffers == old(buffers)[sid := buffers[sid]])
      && emitted == old(emitted) + (if |q0| >= MaxQueueSize then [Emission(Sender(sender), BufferOverflow(|q0|))] else [])
      && buffers[sid].arrived == (if sid in old(buffers) then old(buffers[sid].arrived) else []) + [c]
      && buffers[sid].finished == (if sid in old(buffers) then old(buffers[sid].finished) else [])
      && (busy ==> d.None? && buffers[sid].queue == q0 + [c]
                   && buffers[sid].processing && buffers[sid].inFlight == old(buffers[sid].inFlight))
      && (!busy ==> d == Some(Drain(sid, buffers[sid], (q0 + [c])[0], mimeType))
                    && buffers[sid].queue == (q0 + [c])[1..]
                    && buffers[sid].processing && buffers[sid].inFlight == Some((q0 + [c])[0]))
    }

    /** The valid-chunk part of `audio-stream`. */
    method Enqueue(sender: nat, sid: string, c: Bytes, mimeType: string) returns (d: Option<Drain>)
      requires Valid()
      modifies this`buffers, this`emitted, BufferFrame(sid)
      ensures Valid()
      ensures EnqueuedAs(sender, sid, c, mimeType, d)
    {
      d := None;
      var b := Admit(sender, sid, c);
      if !b.processing {
        d := ProcessQueue(sid, mimeType);
      }
    }

    /** `getOrCreateBuffer`, the overflow warning and the push: the chunk joins the end of
        the session's queue whatever its length, and the sender is warned, with the length
        before the push, exactly when that length is at least 32. */
    method Admit(sender: nat, sid: string, c: Bytes) returns (b: SessionBuffer)
      requires Valid()
      modifies this`buffers, this`emitted, BufferFrame(sid)
      ensures Valid()
      ensures sid in buffers && buffers[sid] == b
      ensures sid in old(buffers) ==> buffers == old(buffers)
      ensures sid !in old(buffers) ==> fresh(b) && buffers == old(buffers)[sid := b]
      ensures var known := sid in old(buffers);
              var q0 := if known then old(buffers[sid].queue) else [];
              && emitted == old(emitted) + (if |q0| >= MaxQueueSize then [Emission(Sender(sender), BufferOverflow(|q0|))] else [])
              && b.queue == q0 + [c]
              && b.arrived == (if known then old(buffers[sid].arrived) else []) + [c]
              && b.processing == (known && old(buffers[sid].processing))
              && b.inFlight == (if known then old(buffers[sid].inFlight) else None)
              && b.finished == (if known then old(buffers[sid].finished) else [])
    {
      b := GetOrCreateBuffer(sid);
      assert b == buffers[sid] && b.Valid();
      if |b.queue| >= MaxQueueSize {
        emitted := emitted + [Emission(Sender(sender), BufferOverflow(|b.queue|))];
      }
      b.Push(c);
    }

    /** `stop-session` up to the model call. An invalid payload gets `session-error`.
        Otherwise `processing` goes to the room first; a session without a record then
        aborts the handler; one with a record is marked PROCESSING and ended (its URL
        replaced only when the payload has one), and the transcript is taken from the
        segments stored so far. The buffer is neither drained nor closed. */
    method BeginStop(sender: nat, p: StopPayload) returns (f: Option<(string, string)>)
      requires Valid()
      modifies this`sessions, this`emitted
      ensures Valid()
      ensures !ValidStop(p) ==>
                f.None? && sessions == old(sessions) && emitted == old(emitted) + [Emission(Sender(sender), SessionError)]
      ensures ValidStop(p) ==>
                emitted == old(emitted) + [Emission(Room(p.sessionId.value), ProcessingNotice(p.sessionId.value))]
      ensures ValidStop(p) && p.sessionId.value !in old(sessions) ==> f.None? && sessions == old(sessions)
      ensures ValidStop(p) && p.sessionId.value in old(sessions) ==>
                var sid := p.sessionId.value;
                var rec := old(sessions)[sid];
                && sessions == old(sessions)[sid := rec.(state := Processing, ended := true,
                                                         audioUrl := if p.audioUrl.Present? then Some(p.audioUrl.value.text) else rec.audioUrl)]
                && f == Some((sid, TranscriptOf(segments, sid)))
    {
      f := None;
      if !ValidStop(p) {
        emitted := emitted + [Emission(Sender(sender), SessionError)];
        return;
      }
      var sid := p.sessionId.value;
      emitted := emitted + [Emission(Room(sid), ProcessingNotice(sid))];
      if sid !in sessions {
        return;
      }
      var rec := sessions[sid];
      var url := if p.audioUrl.Present? then Some(p.audioUrl.value.text) else rec.audioUrl;
      sessions := sessions[sid := rec.(state := Processing, ended := true, audioUrl := url)];
      f := Some((sid, TranscriptOf(segments, sid)));
    }

    /** `stop-session` after the model call (`reply` is what the model answered, used only
        for a non-empty transcript). A failed summary aborts the handler: the session stays
        PROCESSING and its buffer stays. Otherwise the session is COMPLETED with its
        summary, `completed` goes to the room, and the session's buffer entry is deleted,
        even if a chunk is still being transcribed or waiting in it. */
    method FinishStop(sid: string, transcript: string, reply: Result<string, Thrown>)
      requires Valid()
      modifies this`sessions, this`emitted, this`buffers
      ensures Valid()
      ensures Gemini.SummarizeTranscript(transcript, reply).Err? || sid !in old(sessions) ==>
                sessions == old(sessions) && emitted == old(emitted) && buffers == old(buffers)
      ensures Gemini.SummarizeTranscript(transcript, reply).Ok? && sid in old(sessions) ==>
                var summary := Gemini.SummarizeTranscript(transcript, reply).value;
                && sessions == old(sessions)[sid := old(sessions)[sid].(state := Completed, summary := Some(summary))]
                && emitted == old(emitted) + [Emission(Room(sid), CompletedNotice(summary, transcript))]
                && buffers == old(buffers) - {sid}
    {
      var summary := Gemini.SummarizeTranscript(transcript, reply);
      if summary.Err? || sid !in sessions {
        return;
      }
      sessions := sessions[sid := sessions[sid].(state := Completed, summary := Some(summary.value))];
      emitted := emitted + [Emission(Room(sid), CompletedNotice(summary.value, transcript))];
      buffers := buffers - {sid};
    }
  }

  /** A stop that completes while a chunk of the session is still being transcribed
      deletes that busy buffer; the session's next chunk then gets a fresh buffer and
      starts a second transcription for the same session while the first is in flight.
      At most one chunk is in flight per buffer object, not per session id. */
  method SecondDrainAfterStop(srv: Server, sender: nat, sid: string, c1: Bytes, c2: Bytes)
    returns (d1: Option<Drain>, d2: Option<Drain>)
    requires srv.Valid() && sid !in srv.buffers && sid in srv.sessions
    modifies srv
    ensures d1.Some? && d2.Some?
    ensures d1.value.sessionId == sid && d2.value.sessionId == sid
    ensures d1.value.buffer != d2.value.buffer
    ensures d1.value.buffer.inFlight == Some(c1) && d2.value.buffer.inFlight == Some(c2)
  {
    var chunk1 := ChunkPayload(Present(sid), Present("u"), Some(c1), Present(0.0), Present(1.0), Missing);
    d1 := srv.AudioStream(sender, chunk1);
    var b1 := d1.value.buffer;
    var f := srv.BeginStop(sender, StopPayload(Present(sid), Present("u"), Missing));
    srv.FinishStop(f.value.0, f.value.1, Ok("summary"));
    assert sid !in srv.buffers;
    var chunk2 := ChunkPayload(Present(sid), Present("u"), Some(c2), Present(1.0), Present(2.0), Missing);
    d2 := srv.AudioStream(sender, chunk2);
  }

  /** Two chunks for a session with no buffer: the first is taken into flight at once
      and the second waits in the same buffer. */
  method InFlightAndQueued(srv: Server, sender: nat, sid: string, c1: Bytes, c2: Bytes)
    returns (d1: Drain)
    requires srv.Valid() && sid !in srv.buffers
    modifies srv
    ensures srv.Valid() && sid in srv.buffers && srv.sessions == old(srv.sessions)
    ensures d1 == Drain(sid, srv.buffers[sid], c1, ChunkDefaultMimeType) && fresh(d1.buffer)
    ensures var b := d1.buffer;
            b.Valid() && b.queue == [c2] && b.processing && b.inFlight == Some(c1)
            && b.arrived == [c1, c2] && b.finished == []
  {
    var first := srv.Enqueue(sender, sid, c1, ChunkDefaultMimeType);
    d1 := first.value;
    var second := srv.Enqueue(sender, sid, c2, ChunkDefaultMimeType);
  }

  /** A stop that completes while one chunk is in flight and another is queued deletes
      the buffer's entry. When the transcription settles, the drain sees its queue
      non-empty and schedules `processQueue` by session id, which finds no entry: the
      queued chunk stays in the orphaned buffer and is never transcribed. The buffer's
      own bookkeeping still holds it (arrived = finished + queue). */
  method StrandedChunkAfterStop(srv: Server, sender: nat, sid: string, c1: Bytes, c2: Bytes,
                                stream: Gemini.PieceStream, storeFault: Option<Thrown>)
    returns (orphan: SessionBuffer, next: Option<Drain>)
    requires srv.Valid() && sid !in srv.buffers && sid in srv.sessions
    modifies srv
    ensures next.None? && sid !in srv.buffers
    ensures orphan.queue == [c2] && !orphan.processing && orphan.inFlight.None?
    ensures orphan.arrived == [c1, c2] && orphan.finished == [c1]
  {
    var d1 := InFlightAndQueued(srv, sender, sid, c1, c2);
    orphan := d1.buffer;
    var f := srv.BeginStop(sender, StopPayload(Present(sid), Present("u"), Missing));
    srv.FinishStop(f.value.0, f.value.1, Ok("summary"));
    var again := srv.FinishDrain(d1, stream, storeFault);
    next := srv.RunScheduledDrain(d1);
  }
}

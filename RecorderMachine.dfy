/** The client's recorder state machine (the `recorderMachine` of hooks/useAudioStream.ts):
    five states, a per-state transition table, and the root-level RESET and SYNC handlers
    that every state falls back to. */
module RecorderMachine {
  import opened Common

  datatype Status = Idle | Recording | Paused | Processing | Completed

  /** `SYNC` carries whatever status was read back from local storage: a string, or
      nothing usable (`None`: the field was missing or not a string). */
  datatype Event = Start | Pause | Resume | Process | Complete | Reset | Sync(status: Option<string>)

  /** The state value as the machine names it, which is also what is persisted. */
  function StatusName(s: Status): string {
    match s
    case Idle => "IDLE"
    case Recording => "RECORDING"
    case Paused => "PAUSED"
    case Processing => "PROCESSING"
    case Completed => "COMPLETED"
  }

  /** The four statuses a SYNC can move to. */
  predicate IsSyncable(name: string) {
    name == "RECORDING" || name == "PAUSED" || name == "PROCESSING" || name == "COMPLETED"
  }

  /** The transitions each state lists for itself: never for SYNC, and each one a step
      of the designed lifecycle or a RESET to IDLE. */
  function Listed(s: Status, e: Event): (r: Option<Status>)
    ensures r.Some? ==> !e.Sync?
    ensures r.Some? ==> DesignEdge(s, r.value) || (e.Reset? && r.value == Idle)
    ensures e.Reset? ==> r == Some(Idle) || (s == Idle && r.None?)
  {
    match (s, e)
    case (Idle, Start) => Some(Recording)
    case (Recording, Pause) => Some(Paused)
    case (Recording, Process) => Some(Processing)
    case (Recording, Complete) => Some(Completed)
    case (Recording, Reset) => Some(Idle)
    case (Paused, Resume) => Some(Recording)
    case (Paused, Process) => Some(Processing)
    case (Paused, Reset) => Some(Idle)
    case (Processing, Complete) => Some(Completed)
    case (Processing, Reset) => Some(Idle)
    case (Completed, Start) => Some(Recording)
    case (Completed, Reset) => Some(Idle)
    case _ => None
  }

  /** The root-level SYNC handler: its guards are tried in order and the last,
      unguarded, candidate goes to IDLE. */
  function SyncTarget(status: Option<string>): (r: Status)
    ensures status.Some? && IsSyncable(status.value) ==> StatusName(r) == status.value
    ensures !(status.Some? && IsSyncable(status.value)) ==> r == Idle
  {
    if status == Some("RECORDING") then Recording
    else if status == Some("PAUSED") then Paused
    else if status == Some("PROCESSING") then Processing
    else if status == Some("COMPLETED") then Completed
    else Idle
  }

  /** The lifecycle as designed: which status may follow which (RESET aside). */
  predicate DesignEdge(s: Status, t: Status) {
    match s
    case Idle => t == Recording
    case Recording => t == Paused || t == Processing || t == Completed
    case Paused => t == Recording || t == Processing || t == Idle
    case Processing => t == Completed || t == Idle
    case Completed => t == Recording || t == Idle
  }

  /** One event delivered to the machine. A transition the current state lists wins;
      otherwise the root handles RESET and SYNC; anything else is ignored. RESET always
      ends in IDLE; SYNC ends in the named status when it is one of the four non-IDLE
      ones and in IDLE otherwise; every other event either leaves the state alone or
      takes one step of the designed lifecycle. */
  function Step(s: Status, e: Event): (r: Status)
    ensures e.Reset? ==> r == Idle
    ensures e.Sync? && e.status.Some? && IsSyncable(e.status.value) ==> StatusName(r) == e.status.value
    ensures e.Sync? && !(e.status.Some? && IsSyncable(e.status.value)) ==> r == Idle
    ensures !e.Reset? && !e.Sync? ==> r == s || DesignEdge(s, r)
  {
    match Listed(s, e)
    case Some(t) => t
    case None =>
      match e
      case Reset => Idle
      case Sync(status) => SyncTarget(status)
      case _ => s
  }

  /** START begins a recording from IDLE and from COMPLETED and is ignored elsewhere. */
  lemma StartOnlyFromIdleOrCompleted(s: Status)
    ensures Step(s, Start) == (if s == Idle || s == Completed then Recording else s)
  {
  }

  /** PAUSE pauses a recording and is ignored elsewhere. */
  lemma PauseOnlyFromRecording(s: Status)
    ensures Step(s, Pause) == (if s == Recording then Paused else s)
  {
  }

  /** RESUME resumes a paused recording and is ignored elsewhere. */
  lemma ResumeOnlyFromPaused(s: Status)
    ensures Step(s, Resume) == (if s == Paused then Recording else s)
  {
  }

  /** PROCESS leads to PROCESSING from RECORDING and from PAUSED and is ignored elsewhere. */
  lemma ProcessFromRecordingOrPaused(s: Status)
    ensures Step(s, Process) == (if s == Recording || s == Paused then Processing else s)
  {
  }

  /** COMPLETE leads to COMPLETED from RECORDING and from PROCESSING and is ignored
      elsewhere. */
  lemma CompleteFromRecordingOrProcessing(s: Status)
    ensures Step(s, Complete) == (if s == Recording || s == Processing then Completed else s)
  {
  }

  /** Apart from RESET and SYNC, which the machine handles at its root, a step is what the
      current state's table lists, and an event the table does not list leaves the state
      unchanged. */
  lemma StepFollowsTable(s: Status, e: Event)
    ensures Listed(s, e).Some? ==> Step(s, e) == Listed(s, e).value
    ensures Listed(s, e).None? && !e.Reset? && !e.Sync? ==> Step(s, e) == s
  {
  }

  /** PROCESSING reacts only to COMPLETE, RESET and SYNC; PAUSED ignores COMPLETE. */
  lemma ProcessingAndPausedIgnoreUnlisted(e: Event)
    ensures !e.Complete? && !e.Reset? && !e.Sync? ==> Step(Processing, e) == Processing
    ensures Step(Paused, Complete) == Paused
  {
  }

  /** Every step of the designed lifecycle is taken by some ordinary event, or by RESET
      when it leads to IDLE: the table has no missing transitions. */
  lemma {:induction false} DesignEdgesAreImplemented(s: Status, t: Status)
    requires DesignEdge(s, t)
    ensures exists e: Event :: !e.Sync? && Step(s, e) == t
  {
    var e: Event :=
      if t == Idle then Reset
      else if t == Paused then Pause
      else if t == Processing then Process
      else if t == Completed then Complete
      else if s == Paused then Resume
      else Start;
    assert Step(s, e) == t;
  }

  /** Persisting a status and syncing it back restores it, from whatever state the
      machine is in when the SYNC arrives. */
  lemma {:induction false} SyncRestoresPersisted(s: Status, t: Status)
    ensures Step(s, Sync(Some(StatusName(t)))) == t
  {
    match t
    case Idle =>
      assert !IsSyncable("IDLE");
    case _ =>
  }

  // ---------------------------------------------------------------------------
  // SYNC as the guards are written (see the README's findings).

  /** A SYNC guard as written: it reads the event from its second parameter. */
  predicate SyncGuardAsWritten(second: Option<Event>, wanted: string) {
    second.Some? && second.value.Sync? && second.value.status == Some(wanted)
  }

  /** `Step` with the guards evaluated the way XState 5 calls an inline guard,
      `guard({ context, event }, params)`: for a guard given as a bare function the second
      argument is undefined, so no guard holds and every SYNC falls through to IDLE. */
  function StepAsWritten(s: Status, e: Event): (r: Status)
    ensures e.Sync? ==> r == Idle
    ensures !e.Sync? ==> r == Step(s, e)
  {
    match Listed(s, e)
    case Some(t) => t
    case None =>
      match e
      case Reset => Idle
      case Sync(_) =>
        var params: Option<Event> := None;
        if SyncGuardAsWritten(params, "RECORDING") then Recording
        else if SyncGuardAsWritten(params, "PAUSED") then Paused
        else if SyncGuardAsWritten(params, "PROCESSING") then Processing
        else if SyncGuardAsWritten(params, "COMPLETED") then Completed
        else Idle
      case _ => s
  }

  /** As written, a reload while RECORDING restores IDLE instead of RECORDING. */
  lemma PersistedStatusLostAsWritten(s: Status)
    ensures StepAsWritten(s, Sync(Some(StatusName(Recording)))) == Idle
    ensures Step(s, Sync(Some(StatusName(Recording)))) == Recording
  {
  }
}

// Documents of one conversation, as services/conversation/models.py stores them.

module Models {
  import opened Text

  datatype SttStatus = SttPending | SttProcessing | SttCompleted | SttFailed

  // A stored "excluded" is read back as Processed with an exclusion reason.
  datatype ProcessingStatus = Unprocessed | Processed | Archived | Expired

  datatype ExclusionReason = EmptyTranscript | SttFailure | SequenceMissing

  // What a chunk says: `text` is `(normalizedText or rawText or "").strip()` and
  // `durationMs` is `max(0, int(endTimeMs or 0))`, the values every reader derives.
  datatype Speech = Speech(sequence: nat, text: string, durationMs: nat)

  predicate IsUseful(s: Speech) {
    s.text != ""
  }

  predicate Ascending(chunks: seq<Speech>) {
    forall i, j :: 0 <= i < j < |chunks| ==> chunks[i].sequence < chunks[j].sequence
  }

  datatype Chunk = Chunk(
    speech: Speech,
    stt: SttStatus,
    // the `terminal` flag
    terminal: bool,
    // what the failure type, the last error and the attempt count say of a FAILED chunk
    permanentFailure: bool,
    processing: ProcessingStatus,
    windowId: Option<nat>,
    exclusion: Option<ExclusionReason>
  )

  predicate IsTerminalFailed(c: Chunk) {
    c.stt.SttFailed? && (c.terminal || c.permanentFailure)
  }

  predicate IsCompletedUseful(c: Chunk) {
    c.stt.SttCompleted? && IsUseful(c.speech)
  }

  predicate IsCompletedEmpty(c: Chunk) {
    c.stt.SttCompleted? && !IsUseful(c.speech)
  }

  datatype CloseReason = TokenTarget | TokenMax | DurationMax | SparseTimeout | ForcedFinal

  datatype WindowStatus = WindowPending | WindowProcessing | WindowCompleted | WindowRetrying | WindowFailed

  datatype ConversationStatus =
    | Recording | StopRequested | WaitingForTranscripts | Finalizing | ReadyForProcessing
    | InProcessing | Validating | Completed | Partial | RetryPending | Failed

  function ValidTransitions(current: ConversationStatus): set<ConversationStatus> {
    match current
    case Recording => {StopRequested, WaitingForTranscripts, Failed}
    case StopRequested => {WaitingForTranscripts, Finalizing, ReadyForProcessing, Partial, RetryPending, Failed}
    case WaitingForTranscripts => {Finalizing, ReadyForProcessing, InProcessing, Partial, RetryPending, Failed}
    case ReadyForProcessing => {InProcessing, RetryPending, Failed}
    case InProcessing => {Validating, Finalizing, RetryPending, Failed}
    case Finalizing => {WaitingForTranscripts, ReadyForProcessing, InProcessing, Partial, Completed, Failed}
    case Validating => {Completed, Partial, RetryPending, Failed}
    case Partial => {InProcessing, RetryPending, Failed, Completed}
    case RetryPending => {WaitingForTranscripts, ReadyForProcessing, InProcessing, Failed}
    case Failed => {RetryPending}
    case Completed => {}
  }

  // `assert_valid_transition` does not raise.
  predicate MayMove(current: ConversationStatus, target: ConversationStatus) {
    current == target || target in ValidTransitions(current)
  }
}

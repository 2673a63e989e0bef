// What every step of a worker writes, document by document: a definition of its
// own, which knows neither the functions of the repository nor the lists they
// update, and the proof that the steps do just that.

module StepEffects {
  import opened Text
  import opened Models
  import opened Windowing
  import opened Store
  import opened Lookups
  import opened Repository
  import opened Protocol

  // What the worker `w` is in the middle of.
  function Doing(m: Machine, w: nat): Option<Phase> {
    if w < |m.workers| then Some(m.workers[w]) else None
  }

  // ----- chunks

  // The document of chunk `n` after a step.
  function ChunkAfter(m: Machine, step: Step, n: int): Option<Chunk> {
    match Lookup(m.db.chunks, n)
    case None =>
      if step.Record? && step.sequence == n then
        Some(Chunk(Speech(step.sequence, "", step.durationMs), SttPending, false, false, Unprocessed, None, None))
      else None
    case Some(c) => Some(WrittenBy(m, step, n, c))
  }

  function WrittenBy(m: Machine, step: Step, n: int, c: Chunk): Chunk {
    match step
    case Complete(w, k, text) =>
      if k == n && Doing(m, w) == Some(Idle) && c.stt != SttCompleted then
        Chunk(Speech(c.speech.sequence, Strip(text), c.speech.durationMs), SttCompleted, false, false, c.processing, c.windowId, None)
      else c
    case WriteFail(w) =>
      (match Doing(m, w)
       case Some(FailureRead(k, _, terminal, permanent)) =>
         if k == n && c.stt != SttCompleted && !c.terminal then
           Chunk(c.speech, SttFailed, terminal, permanent, c.processing, c.windowId, if terminal then Some(SttFailure) else c.exclusion)
         else c
       case _ => c)
    case StartProcessing(k) => if k == n && c.stt != SttCompleted && !c.terminal then c.(stt := SttProcessing) else c
    case ReclaimStt(k) => if k == n && c.stt == SttProcessing then c.(stt := SttPending) else c
    case Exclude(numbers, reason) =>
      if n in numbers && c.processing == Unprocessed then c.(processing := Processed, exclusion := Some(reason)) else c
    case Archive => if c.stt == SttCompleted then c.(processing := Archived) else c
    case ClaimChunks(w) =>
      (match Doing(m, w)
       case Some(WindowStored(id, owned)) =>
         if n in owned && c.processing == Unprocessed then c.(processing := Processed, windowId := Some(id)) else c
       case _ => c)
    case _ => c
  }

  lemma OneWrites(m: Machine, step: Step, n: int)
    requires WritesOne(step)
    ensures Lookup(Next(m, step).db.chunks, n) == ChunkAfter(m, step, n)
  {
    if Lookup(m.db.chunks, n).Some? {
      LookupNumber(m.db.chunks, n);
    }
    match step
    case Complete(w, k, text) =>
      if MayComplete(m.db.chunks, k) {
        LookupNumber(m.db.chunks, k);
        PutLookup(m.db.chunks, TranscribedFrom(Lookup(m.db.chunks, k).value, text), n);
      }
    case WriteFail(w) =>
      if w < |m.workers| && m.workers[w].FailureRead? && IsOpen(m.db.chunks, m.workers[w].number) {
        var p := m.workers[w];
        LookupNumber(m.db.chunks, p.number);
        PutLookup(m.db.chunks, FailedFrom(Lookup(m.db.chunks, p.number).value, p.terminal, p.permanent), n);
      }
    case StartProcessing(k) =>
      if IsOpen(m.db.chunks, k) {
        LookupNumber(m.db.chunks, k);
        PutLookup(m.db.chunks, Lookup(m.db.chunks, k).value.(stt := SttProcessing), n);
      }
    case ReclaimStt(k) =>
      if IsProcessingAt(m.db.chunks, k) {
        LookupNumber(m.db.chunks, k);
        PutLookup(m.db.chunks, Lookup(m.db.chunks, k).value.(stt := SttPending), n);
      }
  }

  lemma ManyWrite(m: Machine, step: Step, n: int)
    requires WritesMany(step) && Ordered(m.db.chunks)
    ensures Lookup(Next(m, step).db.chunks, n) == ChunkAfter(m, step, n)
  {
    if Lookup(m.db.chunks, n).Some? {
      LookupNumber(m.db.chunks, n);
    }
    match step
    case Record(k, durationMs) => InsertLookup(m.db.chunks, NewChunk(k, durationMs), n);
    case Exclude(numbers, reason) => ExcludedLookup(m.db.chunks, numbers, reason, n);
    case Archive => ArchivedLookup(m.db.chunks, n);
    case ClaimChunks(w) =>
      if w < |m.workers| && m.workers[w].WindowStored? {
        ClaimedLookup(m.db.chunks, m.workers[w].owned, m.workers[w].id, n);
      }
  }

  // Every step writes the chunks in this way and no other.
  lemma ChunksAreWritten(m: Machine, step: Step, n: int)
    requires Ordered(m.db.chunks)
    ensures Lookup(Next(m, step).db.chunks, n) == ChunkAfter(m, step, n)
  {
    if WritesOne(step) {
      OneWrites(m, step, n);
    } else if WritesMany(step) {
      ManyWrite(m, step, n);
    } else {
      OthersKeepChunks(m, step);
    }
  }

  // ----- windows

  // The document of window `i` after a step.
  function WindowAfter(m: Machine, step: Step, i: nat): StoredWindow
    requires i < |m.db.windows|
  {
    var w := m.db.windows[i];
    match step
    case GrantWindow(k) =>
      if k == i && w.status in {WindowPending, WindowFailed, WindowRetrying} then
        w.(status := WindowProcessing, attemptCount := w.attemptCount + 1)
      else w
    case CompleteWindow(k, skipped, ok) =>
      if k == i then w.(status := WindowCompleted, extractionSkipped := skipped, persistenceOk := ok) else w
    case FailWindow(k) => if k == i then w.(status := WindowFailed) else w
    case ReclaimWindow(k) => if k == i && w.status == WindowProcessing then w.(status := WindowPending, queued := false) else w
    case QueueWindow(k) => if k == i then w.(queued := true) else w
    case _ => w
  }

  // A window appears only when none has its first and last number.
  predicate Appears(m: Machine, step: Step) {
    && step.InsertWindow? && Doing(m, step.worker) == Some(Idle)
    && forall i :: 0 <= i < |m.db.windows| ==>
                     (m.db.windows[i].doc.sequenceStart, m.db.windows[i].doc.sequenceEnd) != (step.doc.sequenceStart, step.doc.sequenceEnd)
  }

  lemma InsertWrites(m: Machine, w: nat, doc: Window, owned: set<int>)
    ensures var step := InsertWindow(w, doc, owned);
            Next(m, step).db.windows ==
            m.db.windows + if Appears(m, step) then [StoredWindow(doc, WindowPending, 0, false, false, true)] else []
  {
    FoundWindow(m.db.windows, doc.sequenceStart, doc.sequenceEnd);
    assert m.db.windows + [] == m.db.windows;
  }

  // Every step writes the windows in this way and no other.
  lemma WindowsAreWritten(m: Machine, step: Step, i: nat)
    requires i < |m.db.windows|
    ensures |Next(m, step).db.windows| == |m.db.windows| + if Appears(m, step) then 1 else 0
    ensures Next(m, step).db.windows[i] == WindowAfter(m, step, i)
  {
    if step.InsertWindow? {
      InsertWrites(m, step.worker, step.doc, step.owned);
    }
  }

  // ----- the conversation, and what a worker goes on with

  // The conversation after a step: its two counters and its status.
  function ConversationAfter(m: Machine, step: Step): Conversation {
    var c := m.db.conversation;
    match step
    case CountCompletion(w) => if Doing(m, w) == Some(TranscriptStored) then c.(completedCount := c.completedCount + 1) else c
    case CountFail(w) => if Doing(m, w) == Some(FailureStored) then c.(failedCount := c.failedCount + 1) else c
    case WriteStatus(w) =>
      (match Doing(m, w)
       case Some(StatusRead(seen, target)) => if c.status == seen then c.(status := target) else c
       case _ => c)
    case GiveUp => if c.status == Completed then c else c.(status := Failed)
    case _ => c
  }

  // What a worker does next when the step is its own.
  function PhaseAfter(m: Machine, step: Step): Phase
    requires IsWorking(step) && WorkerOf(step) < |m.workers|
  {
    var doing := m.workers[WorkerOf(step)];
    match step
    case Complete(_, k, _) =>
      var c := Lookup(m.db.chunks, k);
      if doing == Idle && c.Some? && c.value.stt != SttCompleted then TranscriptStored else doing
    case CountCompletion(_) => if doing == TranscriptStored then Idle else doing
    case ReadForFail(_, k, terminal, permanent) =>
      var c := Lookup(m.db.chunks, k);
      if doing == Idle && c.Some? && c.value.stt != SttCompleted && !(c.value.stt == SttFailed && c.value.terminal) then
        FailureRead(k, c.value.stt, terminal, permanent)
      else doing
    case WriteFail(_) =>
      (match doing
       case FailureRead(k, read, _, _) =>
         var c := Lookup(m.db.chunks, k);
         if c.Some? && c.value.stt != SttCompleted && !c.value.terminal && read != SttFailed then FailureStored else Idle
       case _ => doing)
    case CountFail(_) => if doing == FailureStored then Idle else doing
    case InsertWindow(_, doc, owned) =>
      if doing == Idle then WindowStored(UpsertWindow(m.db.windows, doc).1, owned) else doing
    case ClaimChunks(_) => if doing.WindowStored? then Idle else doing
    case ReadStatus(_, target) =>
      var status := m.db.conversation.status;
      if doing == Idle && (status == target || target in ValidTransitions(status)) then StatusRead(status, target) else doing
    case WriteStatus(_) => if doing.StatusRead? then Idle else doing
  }

  predicate IsWorking(step: Step) {
    || step.Complete? || step.CountCompletion? || step.ReadForFail? || step.WriteFail? || step.CountFail?
    || step.InsertWindow? || step.ClaimChunks? || step.ReadStatus? || step.WriteStatus?
  }

  function WorkerOf(step: Step): nat
    requires IsWorking(step)
  {
    step.worker
  }

  lemma ConversationIsWritten(m: Machine, step: Step)
    ensures Next(m, step).db.conversation == ConversationAfter(m, step)
  {
  }

  // Every step moves its own worker in this way, and no other worker.
  lemma WorkersGoOn(m: Machine, step: Step, w: nat)
    requires w < |m.workers|
    ensures |Next(m, step).workers| == |m.workers|
    ensures Next(m, step).workers[w] ==
            if IsWorking(step) && WorkerOf(step) == w then PhaseAfter(m, step) else m.workers[w]
  {
  }

  // ----- the table of statuses, read by target

  function ComesFrom(target: ConversationStatus): set<ConversationStatus> {
    match target
    case Recording => {}
    case StopRequested => {Recording}
    case WaitingForTranscripts => {Recording, StopRequested, Finalizing, RetryPending}
    case Finalizing => {StopRequested, WaitingForTranscripts, InProcessing}
    case ReadyForProcessing => {StopRequested, WaitingForTranscripts, Finalizing, RetryPending}
    case InProcessing => {WaitingForTranscripts, Finalizing, ReadyForProcessing, Partial, RetryPending}
    case Validating => {InProcessing}
    case Completed => {Finalizing, Validating, Partial}
    case Partial => {StopRequested, WaitingForTranscripts, Finalizing, Validating}
    case RetryPending =>
      {StopRequested, WaitingForTranscripts, ReadyForProcessing, InProcessing, Validating, Partial, Failed}
    case Failed =>
      {Recording, StopRequested, WaitingForTranscripts, Finalizing, ReadyForProcessing, InProcessing, Validating, Partial,
       RetryPending}
  }

  lemma MovesByTarget(current: ConversationStatus, target: ConversationStatus)
    ensures MayMove(current, target) <==> current == target || current in ComesFrom(target)
  {
  }

  // Over any run, a status is entered only from one it may come from; COMPLETED
  // only from a conversation that was finalized, validated or partial.
  lemma EnteredFrom(m: Machine, steps: seq<Step>, i: nat)
    requires Followed(m) && i + 1 < |After(m, steps).statuses|
    ensures var s := After(m, steps).statuses;
            && (s[i] == s[i + 1] || s[i] in ComesFrom(s[i + 1]))
            && (s[i + 1] == Completed ==> s[i] in {Completed, Finalizing, Validating, Partial})
            && (s[i + 1] == Recording ==> s[i] == Recording)
  {
    StatusOverRuns(m, steps);
    var s := After(m, steps).statuses;
    MovesByTarget(s[i], s[i + 1]);
  }
}

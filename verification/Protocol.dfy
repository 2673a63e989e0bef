// Workers that call the repository at the same time: every read and every
// conditional write is one step, and the steps interleave freely.

module Protocol {
  import opened Seqs
  import opened Text
  import opened Models
  import opened Windowing
  import opened Store
  import opened Incremental
  import opened Lookups
  import opened Repository
  import WindowOrder

  // What a worker still has to do in the call it is in.
  datatype Phase =
    | Idle
    | TranscriptStored
    | FailureRead(number: int, read: SttStatus, terminal: bool, permanent: bool)
    | FailureStored
    | WindowStored(id: nat, owned: set<int>)
    | StatusRead(seen: ConversationStatus, target: ConversationStatus)

  datatype Step =
    | Record(sequence: nat, durationMs: nat)
    | Complete(worker: nat, number: int, text: string)
    | CountCompletion(worker: nat)
    | StartProcessing(number: int)
    | ReadForFail(worker: nat, number: int, terminal: bool, permanent: bool)
    | WriteFail(worker: nat)
    | CountFail(worker: nat)
    | ReclaimStt(number: int)
    | Exclude(numbers: set<int>, reason: ExclusionReason)
    | Archive
    | InsertWindow(worker: nat, doc: Window, owned: set<int>)
    | ClaimChunks(worker: nat)
    | GrantWindow(window: nat)
    | CompleteWindow(window: nat, skipped: bool, persistenceOk: bool)
    | FailWindow(window: nat)
    | ReclaimWindow(window: nat)
    | QueueWindow(window: nat)
    | ReadStatus(worker: nat, target: ConversationStatus)
    | WriteStatus(worker: nat)
    | GiveUp

  // The stored documents and the workers; beside them what happened so far:
  // the numbers that ever failed, the statuses the conversation went through,
  // and how often each window was failed or reclaimed.
  datatype Machine = Machine(
    db: Db,
    workers: seq<Phase>,
    everFailed: set<int>,
    statuses: seq<ConversationStatus>,
    releases: seq<nat>
  )

  predicate IsAt(m: Machine, w: nat, p: Phase) {
    w < |m.workers| && m.workers[w] == p
  }

  function Enter(m: Machine, w: nat, p: Phase): Machine
    requires w < |m.workers|
  {
    m.(workers := m.workers[w := p])
  }

  // ----- the steps of one call

  function DoComplete(m: Machine, w: nat, n: int, text: string): Machine {
    if IsAt(m, w, Idle) && MayComplete(m.db.chunks, n) then
      Enter(m.(db := StoreTranscript(m.db, n, text).0), w, TranscriptStored)
    else m
  }

  function DoCountCompletion(m: Machine, w: nat): Machine {
    if IsAt(m, w, TranscriptStored) then Enter(m.(db := CountTranscript(m.db)), w, Idle) else m
  }

  function DoReadForFail(m: Machine, w: nat, n: int, terminal: bool, permanent: bool): Machine {
    match ReadForFailure(m.db, n)
    case None => m
    case Some(read) => if IsAt(m, w, Idle) then Enter(m, w, FailureRead(n, read, terminal, permanent)) else m
  }

  function DoWriteFail(m: Machine, w: nat): Machine {
    if w < |m.workers| && m.workers[w].FailureRead? then
      var p := m.workers[w];
      var written := StoreFailure(m.db, p.number, p.terminal, p.permanent);
      var counted := written.1 && !p.read.SttFailed?;
      Enter(m.(db := written.0, everFailed := if written.1 then m.everFailed + {p.number} else m.everFailed), w,
            if counted then FailureStored else Idle)
    else m
  }

  function DoCountFail(m: Machine, w: nat): Machine {
    if IsAt(m, w, FailureStored) then Enter(m.(db := CountFailure(m.db)), w, Idle) else m
  }

  function DoInsertWindow(m: Machine, w: nat, doc: Window, owned: set<int>): Machine {
    if IsAt(m, w, Idle) then
      var stored := UpsertWindow(m.db.windows, doc);
      Enter(m.(db := m.db.(windows := stored.0),
            releases := if |stored.0| > |m.db.windows| then m.releases + [0] else m.releases), w, WindowStored(stored.1, owned))
    else m
  }

  function DoClaim(m: Machine, w: nat): Machine {
    if w < |m.workers| && m.workers[w].WindowStored? then
      Enter(m.(db := m.db.(chunks := Claimed(m.db.chunks, m.workers[w].owned, m.workers[w].id))), w, Idle)
    else m
  }

  function WriteWindow(m: Machine, i: nat, w: StoredWindow): Machine
    requires i < |m.db.windows|
  {
    m.(db := m.db.(windows := m.db.windows[i := w]))
  }

  function Release(m: Machine, i: nat): Machine {
    if i < |m.releases| then m.(releases := m.releases[i := m.releases[i] + 1]) else m
  }

  function DoReclaimWindow(m: Machine, i: nat): Machine {
    if i < |m.db.windows| && m.db.windows[i].status.WindowProcessing? then
      Release(WriteWindow(m, i, ReclaimedWindow(m.db.windows[i])), i)
    else m
  }

  function DoReadStatus(m: Machine, w: nat, target: ConversationStatus): Machine {
    if IsAt(m, w, Idle) && MayMove(m.db.conversation.status, target) then
      Enter(m, w, StatusRead(m.db.conversation.status, target))
    else m
  }

  function WithStatus(m: Machine, conversation: Conversation): Machine {
    m.(db := m.db.(conversation := conversation), statuses := m.statuses + [conversation.status])
  }

  function DoWriteStatus(m: Machine, w: nat): Machine {
    if w < |m.workers| && m.workers[w].StatusRead? then
      var written := StoreStatus(m.db.conversation, m.workers[w].seen, m.workers[w].target);
      Enter(if written.1 then WithStatus(m, written.0) else m, w, Idle)
    else m
  }

  function DoGiveUp(m: Machine): Machine {
    if m.db.conversation.status.Completed? then m else WithStatus(m, FailConversation(m.db.conversation))
  }

  function Next(m: Machine, step: Step): Machine {
    match step
    case Record(n, durationMs) => m.(db := RecordAudio(m.db, n, durationMs))
    case Complete(w, n, text) => DoComplete(m, w, n, text)
    case CountCompletion(w) => DoCountCompletion(m, w)
    case StartProcessing(n) => m.(db := StartTranscription(m.db, n).0)
    case ReadForFail(w, n, terminal, permanent) => DoReadForFail(m, w, n, terminal, permanent)
    case WriteFail(w) => DoWriteFail(m, w)
    case CountFail(w) => DoCountFail(m, w)
    case ReclaimStt(n) => m.(db := ReclaimChunk(m.db, n))
    case Exclude(numbers, reason) => m.(db := MarkExcluded(m.db, numbers, reason))
    case Archive => m.(db := m.db.(chunks := ArchivedAll(m.db.chunks)))
    case InsertWindow(w, doc, owned) => DoInsertWindow(m, w, doc, owned)
    case ClaimChunks(w) => DoClaim(m, w)
    case GrantWindow(i) => if i < |m.db.windows| then WriteWindow(m, i, Granted(m.db.windows[i])) else m
    case CompleteWindow(i, skipped, ok) =>
      if i < |m.db.windows| then WriteWindow(m, i, CompletedWindow(m.db.windows[i], skipped, ok)) else m
    case FailWindow(i) => if i < |m.db.windows| then Release(WriteWindow(m, i, FailedWindow(m.db.windows[i])), i) else m
    case ReclaimWindow(i) => DoReclaimWindow(m, i)
    case QueueWindow(i) => if i < |m.db.windows| then WriteWindow(m, i, QueuedWindow(m.db.windows[i])) else m
    case ReadStatus(w, target) => DoReadStatus(m, w, target)
    case WriteStatus(w) => DoWriteStatus(m, w)
    case GiveUp => DoGiveUp(m)
  }

  function After(m: Machine, steps: seq<Step>): Machine {
    if steps == [] then m else Next(After(m, steps[..|steps| - 1]), steps[|steps| - 1])
  }

  predicate AllIdle(workers: seq<Phase>) {
    forall i :: 0 <= i < |workers| ==> workers[i].Idle?
  }

  // A conversation whose recording has just started.
  predicate Initial(m: Machine) {
    && m.db.chunks == [] && m.db.windows == []
    && m.db.conversation.completedCount == 0 && m.db.conversation.failedCount == 0
    && AllIdle(m.workers) && m.everFailed == {} && m.releases == []
    && m.statuses == [m.db.conversation.status]
  }

  // ----- chunks, whatever the step

  // How one chunk may change in a step.
  predicate Evolves(before: Chunk, after: Chunk) {
    && (before.stt.SttCompleted? ==> after.stt.SttCompleted? && after.speech == before.speech)
    && (before.terminal && before.stt.SttFailed? ==> after.stt.SttCompleted? || (after.stt.SttFailed? && after.terminal))
    && (!before.processing.Unprocessed? ==> !after.processing.Unprocessed? && after.windowId == before.windowId)
    && (after.windowId != before.windowId ==> !after.processing.Unprocessed?)
    && after.speech.sequence == before.speech.sequence
  }

  // A document that appears has no window yet.
  predicate EvolvesAt(before: seq<Chunk>, after: seq<Chunk>, n: int) {
    match (Lookup(before, n), Lookup(after, n))
    case (Some(b), Some(a)) => Evolves(b, a)
    case (Some(_), None) => false
    case (None, Some(a)) => a.windowId.None? && !a.stt.SttFailed?
    case (None, None) => true
  }

  predicate FailedAt(chunks: seq<Chunk>, n: int) {
    Lookup(chunks, n).Some? && Lookup(chunks, n).value.stt.SttFailed?
  }

  // A write of one chunk, as seen at number `n`.
  lemma WrittenLookup(chunks: seq<Chunk>, c: Chunk, n: int)
    requires Lookup(chunks, c.speech.sequence).Some?
    ensures Lookup(Put(chunks, c), n) == if n == c.speech.sequence then Some(c) else Lookup(chunks, n)
    ensures Lookup(chunks, c.speech.sequence).value.speech.sequence == c.speech.sequence
  {
    PutLookup(chunks, c, n);
    LookupNumber(chunks, c.speech.sequence);
  }

  lemma StoreTranscriptAt(db: Db, k: int, text: string, n: int)
    ensures EvolvesAt(db.chunks, StoreTranscript(db, k, text).0.chunks, n)
    ensures FailedAt(StoreTranscript(db, k, text).0.chunks, n) ==> FailedAt(db.chunks, n)
  {
    if MayComplete(db.chunks, k) {
      LookupNumber(db.chunks, k);
      WrittenLookup(db.chunks, TranscribedFrom(Lookup(db.chunks, k).value, text), n);
    }
  }

  lemma StoreFailureAt(db: Db, k: int, terminal: bool, permanent: bool, n: int)
    ensures EvolvesAt(db.chunks, StoreFailure(db, k, terminal, permanent).0.chunks, n)
    ensures FailedAt(StoreFailure(db, k, terminal, permanent).0.chunks, n) ==>
              FailedAt(db.chunks, n) || (n == k && StoreFailure(db, k, terminal, permanent).1)
  {
    if IsOpen(db.chunks, k) {
      LookupNumber(db.chunks, k);
      WrittenLookup(db.chunks, FailedFrom(Lookup(db.chunks, k).value, terminal, permanent), n);
    }
  }

  lemma StartAt(db: Db, k: int, n: int)
    ensures EvolvesAt(db.chunks, StartTranscription(db, k).0.chunks, n)
    ensures FailedAt(StartTranscription(db, k).0.chunks, n) ==> FailedAt(db.chunks, n)
  {
    if IsOpen(db.chunks, k) {
      LookupNumber(db.chunks, k);
      WrittenLookup(db.chunks, Lookup(db.chunks, k).value.(stt := SttProcessing), n);
    }
  }

  lemma ReclaimAt(db: Db, k: int, n: int)
    ensures EvolvesAt(db.chunks, ReclaimChunk(db, k).chunks, n)
    ensures FailedAt(ReclaimChunk(db, k).chunks, n) ==> FailedAt(db.chunks, n)
  {
    if IsProcessingAt(db.chunks, k) {
      LookupNumber(db.chunks, k);
      WrittenLookup(db.chunks, Lookup(db.chunks, k).value.(stt := SttPending), n);
    }
  }

  lemma MarksEvolve(chunks: seq<Chunk>, numbers: set<int>, reason: ExclusionReason, id: nat, n: int)
    ensures EvolvesAt(chunks, Excluded(chunks, numbers, reason), n)
    ensures EvolvesAt(chunks, Claimed(chunks, numbers, id), n)
    ensures EvolvesAt(chunks, ArchivedAll(chunks), n)
    ensures FailedAt(Excluded(chunks, numbers, reason), n) ==> FailedAt(chunks, n)
    ensures FailedAt(Claimed(chunks, numbers, id), n) ==> FailedAt(chunks, n)
    ensures FailedAt(ArchivedAll(chunks), n) ==> FailedAt(chunks, n)
  {
    ExcludedLookup(chunks, numbers, reason, n);
    ClaimedLookup(chunks, numbers, id, n);
    ArchivedLookup(chunks, n);
  }

  // The steps that write one chunk, and those that write several or insert one;
  // no other step touches the chunks.
  predicate WritesOne(step: Step) {
    step.Complete? || step.WriteFail? || step.StartProcessing? || step.ReclaimStt?
  }

  predicate WritesMany(step: Step) {
    step.Record? || step.Exclude? || step.Archive? || step.ClaimChunks?
  }

  lemma OthersKeepChunks(m: Machine, step: Step)
    requires !WritesOne(step) && !WritesMany(step)
    ensures Next(m, step).db.chunks == m.db.chunks && m.everFailed == Next(m, step).everFailed
  {
  }

  lemma OneEvolves(m: Machine, step: Step, n: int)
    requires WritesOne(step)
    ensures EvolvesAt(m.db.chunks, Next(m, step).db.chunks, n)
    ensures FailedAt(Next(m, step).db.chunks, n) ==> FailedAt(m.db.chunks, n) || n in Next(m, step).everFailed
  {
    match step
    case Complete(w, k, text) => StoreTranscriptAt(m.db, k, text, n);
    case WriteFail(w) =>
      if w < |m.workers| && m.workers[w].FailureRead? {
        StoreFailureAt(m.db, m.workers[w].number, m.workers[w].terminal, m.workers[w].permanent, n);
      }
    case StartProcessing(k) => StartAt(m.db, k, n);
    case ReclaimStt(k) => ReclaimAt(m.db, k, n);
  }

  lemma ManyEvolve(m: Machine, step: Step, n: int)
    requires WritesMany(step) && Ordered(m.db.chunks)
    ensures EvolvesAt(m.db.chunks, Next(m, step).db.chunks, n)
    ensures FailedAt(Next(m, step).db.chunks, n) ==> FailedAt(m.db.chunks, n)
  {
    match step
    case Record(k, durationMs) => InsertLookup(m.db.chunks, NewChunk(k, durationMs), n);
    case Exclude(numbers, reason) => MarksEvolve(m.db.chunks, numbers, reason, 0, n);
    case Archive => MarksEvolve(m.db.chunks, {}, SttFailure, 0, n);
    case ClaimChunks(w) =>
      if w < |m.workers| && m.workers[w].WindowStored? {
        MarksEvolve(m.db.chunks, m.workers[w].owned, SttFailure, m.workers[w].id, n);
      }
  }

  // A number fails only when a failure is written.
  lemma ChunkEvolves(m: Machine, step: Step, n: int)
    requires Ordered(m.db.chunks)
    ensures EvolvesAt(m.db.chunks, Next(m, step).db.chunks, n)
    ensures FailedAt(Next(m, step).db.chunks, n) ==> FailedAt(m.db.chunks, n) || n in Next(m, step).everFailed
  {
    if WritesOne(step) {
      OneEvolves(m, step, n);
    } else if WritesMany(step) {
      ManyEvolve(m, step, n);
    } else {
      OthersKeepChunks(m, step);
    }
  }

  // ----- the documents stay in order

  function Limit(chunks: seq<Chunk>): nat {
    if chunks == [] then 0 else chunks[|chunks| - 1].speech.sequence + 1
  }

  lemma WritesOrdered(db: Db, k: int, text: string, terminal: bool, permanent: bool)
    requires Ordered(db.chunks)
    ensures Ordered(StoreTranscript(db, k, text).0.chunks) && Ordered(StoreFailure(db, k, terminal, permanent).0.chunks)
    ensures Ordered(StartTranscription(db, k).0.chunks) && Ordered(ReclaimChunk(db, k).chunks)
  {
    if Lookup(db.chunks, k).Some? {
      var c := Lookup(db.chunks, k).value;
      PutOrdered(db.chunks, TranscribedFrom(c, text), Limit(db.chunks));
      PutOrdered(db.chunks, FailedFrom(c, terminal, permanent), Limit(db.chunks));
      PutOrdered(db.chunks, c.(stt := SttProcessing), Limit(db.chunks));
      PutOrdered(db.chunks, c.(stt := SttPending), Limit(db.chunks));
    }
  }

  lemma OneOrdered(m: Machine, step: Step)
    requires WritesOne(step) && Ordered(m.db.chunks)
    ensures Ordered(Next(m, step).db.chunks)
  {
    match step
    case Complete(w, k, text) => WritesOrdered(m.db, k, text, false, false);
    case WriteFail(w) =>
      if w < |m.workers| && m.workers[w].FailureRead? {
        WritesOrdered(m.db, m.workers[w].number, "", m.workers[w].terminal, m.workers[w].permanent);
      }
    case StartProcessing(k) => WritesOrdered(m.db, k, "", false, false);
    case ReclaimStt(k) => WritesOrdered(m.db, k, "", false, false);
  }

  lemma ManyOrdered(m: Machine, step: Step)
    requires WritesMany(step) && Ordered(m.db.chunks)
    ensures Ordered(Next(m, step).db.chunks)
  {
    match step
    case Record(k, durationMs) => InsertOrdered(m.db.chunks, NewChunk(k, durationMs), Limit(m.db.chunks) + k + 1);
    case Exclude(numbers, reason) => WindowOrder.ExcludedOrdered(m.db.chunks, numbers, reason);
    case Archive => ArchivedOrdered(m.db.chunks, Limit(m.db.chunks));
    case ClaimChunks(w) =>
      if w < |m.workers| && m.workers[w].WindowStored? {
        WindowOrder.ClaimedOrdered(m.db.chunks, m.workers[w].owned, m.workers[w].id);
      }
  }

  lemma StaysOrdered(m: Machine, step: Step)
    requires Ordered(m.db.chunks)
    ensures Ordered(Next(m, step).db.chunks)
  {
    if WritesOne(step) {
      OneOrdered(m, step);
    } else if WritesMany(step) {
      ManyOrdered(m, step);
    } else {
      OthersKeepChunks(m, step);
    }
  }

  // ----- runs

  // What is kept of one chunk over a whole run: a completed transcript stays,
  // and a window once set is never changed.
  predicate Lasts(before: Chunk, after: Chunk) {
    && (before.stt.SttCompleted? ==> after.stt.SttCompleted? && after.speech == before.speech)
    && (before.windowId.Some? ==> after.windowId == before.windowId)
  }

  predicate MarkedOwned(c: Chunk) {
    c.windowId.Some? ==> !c.processing.Unprocessed?
  }

  ghost predicate Sound(m: Machine) {
    && Ordered(m.db.chunks)
    && forall n :: Lookup(m.db.chunks, n).Some? ==> MarkedOwned(Lookup(m.db.chunks, n).value)
  }

  lemma SoundNext(m: Machine, step: Step)
    requires Sound(m)
    ensures Sound(Next(m, step))
  {
    StaysOrdered(m, step);
    forall n | Lookup(Next(m, step).db.chunks, n).Some?
      ensures MarkedOwned(Lookup(Next(m, step).db.chunks, n).value)
    {
      ChunkEvolves(m, step, n);
    }
  }

  lemma {:induction false} SoundAfter(m: Machine, steps: seq<Step>)
    requires Sound(m)
    ensures Sound(After(m, steps))
  {
    if steps != [] {
      SoundAfter(m, steps[..|steps| - 1]);
      SoundNext(After(m, steps[..|steps| - 1]), steps[|steps| - 1]);
    }
  }

  // From any state of a run on, whatever the workers do.
  lemma {:induction false} ChunksLast(m: Machine, steps: seq<Step>, n: int)
    requires Sound(m) && Lookup(m.db.chunks, n).Some?
    ensures Lookup(After(m, steps).db.chunks, n).Some?
    ensures Lasts(Lookup(m.db.chunks, n).value, Lookup(After(m, steps).db.chunks, n).value)
  {
    if steps != [] {
      var init := steps[..|steps| - 1];
      ChunksLast(m, init, n);
      SoundAfter(m, init);
      ChunkEvolves(After(m, init), steps[|steps| - 1], n);
    }
  }

  // ----- counters

  function Tally(workers: seq<Phase>, p: Phase): nat {
    if workers == [] then 0
    else if workers[|workers| - 1] == p then Tally(workers[..|workers| - 1], p) + 1
    else Tally(workers[..|workers| - 1], p)
  }

  lemma {:induction false} TallyEnter(workers: seq<Phase>, w: nat, q: Phase, p: Phase)
    requires w < |workers|
    ensures Tally(workers[w := q], p) == Tally(workers, p) - (if workers[w] == p then 1 else 0) + if q == p then 1 else 0
  {
    var n := |workers| - 1;
    if w == n {
      assert workers[w := q][..n] == workers[..n];
    } else {
      assert workers[w := q][..n] == workers[..n][w := q];
      TallyEnter(workers[..n], w, q, p);
    }
  }

  lemma {:induction false} TallyIdle(workers: seq<Phase>, p: Phase)
    requires AllIdle(workers) && p != Idle
    ensures Tally(workers, p) == 0
  {
    if workers != [] {
      TallyIdle(workers[..|workers| - 1], p);
    }
  }

  lemma WritesCount(db: Db, k: int, text: string, terminal: bool, permanent: bool)
    ensures CountStt(StoreTranscript(db, k, text).0.chunks, SttCompleted) ==
            CountStt(db.chunks, SttCompleted) + if StoreTranscript(db, k, text).1 then 1 else 0
    ensures CountStt(StoreFailure(db, k, terminal, permanent).0.chunks, SttCompleted) == CountStt(db.chunks, SttCompleted)
    ensures CountStt(StartTranscription(db, k).0.chunks, SttCompleted) == CountStt(db.chunks, SttCompleted)
    ensures CountStt(ReclaimChunk(db, k).chunks, SttCompleted) == CountStt(db.chunks, SttCompleted)
  {
    if Lookup(db.chunks, k).Some? {
      var c := Lookup(db.chunks, k).value;
      LookupNumber(db.chunks, k);
      PutCounts(db.chunks, TranscribedFrom(c, text), SttCompleted);
      PutCounts(db.chunks, FailedFrom(c, terminal, permanent), SttCompleted);
      PutCounts(db.chunks, c.(stt := SttProcessing), SttCompleted);
      PutCounts(db.chunks, c.(stt := SttPending), SttCompleted);
    }
  }

  // Every completed transcript is counted, or a worker is about to count it.
  predicate CompletedCounted(m: Machine) {
    m.db.conversation.completedCount + Tally(m.workers, TranscriptStored) == CountStt(m.db.chunks, SttCompleted)
  }

  // A step that neither stores nor counts a transcript.
  predicate SameCount(m: Machine, next: Machine) {
    && next.db.conversation.completedCount == m.db.conversation.completedCount
    && Tally(next.workers, TranscriptStored) == Tally(m.workers, TranscriptStored)
    && CountStt(next.db.chunks, SttCompleted) == CountStt(m.db.chunks, SttCompleted)
  }

  lemma ReadForFailCount(m: Machine, w: nat, n: int, terminal: bool, permanent: bool)
    ensures SameCount(m, DoReadForFail(m, w, n, terminal, permanent))
  {
    if ReadForFailure(m.db, n).Some? && w < |m.workers| {
      TallyEnter(m.workers, w, FailureRead(n, ReadForFailure(m.db, n).value, terminal, permanent), TranscriptStored);
    }
  }

  lemma WriteFailCount(m: Machine, w: nat)
    ensures SameCount(m, DoWriteFail(m, w))
  {
    if w < |m.workers| && m.workers[w].FailureRead? {
      var p := m.workers[w];
      WritesCount(m.db, p.number, "", p.terminal, p.permanent);
      TallyEnter(m.workers, w, Idle, TranscriptStored);
      TallyEnter(m.workers, w, FailureStored, TranscriptStored);
    }
  }

  lemma InsertWindowCount(m: Machine, w: nat, doc: Window, owned: set<int>)
    ensures SameCount(m, DoInsertWindow(m, w, doc, owned))
  {
    if w < |m.workers| {
      TallyEnter(m.workers, w, WindowStored(UpsertWindow(m.db.windows, doc).1, owned), TranscriptStored);
    }
  }

  lemma ClaimCount(m: Machine, w: nat)
    ensures SameCount(m, DoClaim(m, w))
  {
    if w < |m.workers| && m.workers[w].WindowStored? {
      TallyEnter(m.workers, w, Idle, TranscriptStored);
      ClaimedCounts(m.db.chunks, m.workers[w].owned, m.workers[w].id, SttCompleted);
    }
  }

  lemma StatusStepsCount(m: Machine, w: nat, target: ConversationStatus)
    ensures SameCount(m, DoReadStatus(m, w, target)) && SameCount(m, DoWriteStatus(m, w)) && SameCount(m, DoCountFail(m, w))
  {
    if w < |m.workers| {
      TallyEnter(m.workers, w, StatusRead(m.db.conversation.status, target), TranscriptStored);
      TallyEnter(m.workers, w, Idle, TranscriptStored);
    }
  }

  // The steps that write chunks, other than storing a transcript.
  lemma ChunkStepsCount(m: Machine, step: Step)
    requires step.Record? || step.StartProcessing? || step.ReclaimStt? || step.Exclude? || step.Archive?
    ensures SameCount(m, Next(m, step))
  {
    match step
    case Record(k, durationMs) => InsertCounts(m.db.chunks, NewChunk(k, durationMs), SttCompleted);
    case StartProcessing(k) => WritesCount(m.db, k, "", false, false);
    case ReclaimStt(k) => WritesCount(m.db, k, "", false, false);
    case Exclude(numbers, reason) => ExcludedCounts(m.db.chunks, numbers, reason, SttCompleted);
    case Archive => ArchivedCounts(m.db.chunks, SttCompleted);
  }

  lemma StoredIsCounted(m: Machine, w: nat, n: int, text: string)
    requires CompletedCounted(m)
    ensures CompletedCounted(DoComplete(m, w, n, text)) && CompletedCounted(DoCountCompletion(m, w))
  {
    WritesCount(m.db, n, text, false, false);
    if w < |m.workers| {
      TallyEnter(m.workers, w, TranscriptStored, TranscriptStored);
      TallyEnter(m.workers, w, Idle, TranscriptStored);
    }
  }

  lemma CompletedCountedNext(m: Machine, step: Step)
    requires CompletedCounted(m)
    ensures CompletedCounted(Next(m, step))
  {
    match step
    case Complete(w, k, text) => StoredIsCounted(m, w, k, text);
    case CountCompletion(w) => StoredIsCounted(m, w, 0, "");
    case ReadForFail(w, n, terminal, permanent) => ReadForFailCount(m, w, n, terminal, permanent);
    case WriteFail(w) => WriteFailCount(m, w);
    case CountFail(w) => StatusStepsCount(m, w, Failed);
    case InsertWindow(w, doc, owned) => InsertWindowCount(m, w, doc, owned);
    case ClaimChunks(w) => ClaimCount(m, w);
    case ReadStatus(w, target) => StatusStepsCount(m, w, target);
    case WriteStatus(w) => StatusStepsCount(m, w, Failed);
    case Record(_, _) => ChunkStepsCount(m, step);
    case StartProcessing(_) => ChunkStepsCount(m, step);
    case ReclaimStt(_) => ChunkStepsCount(m, step);
    case Exclude(_, _) => ChunkStepsCount(m, step);
    case Archive => ChunkStepsCount(m, step);
    case _ =>
  }

  // ----- failures

  predicate ReadKnows(p: Phase, everFailed: set<int>) {
    p.FailureRead? && p.read.SttFailed? ==> p.number in everFailed
  }

  // The worker writes a failure that it is going to count, of a number that has
  // failed before: the status it read was not FAILED, because the chunk was taken
  // up again, or because another worker wrote its failure since.
  predicate CountsAgain(m: Machine, step: Step) {
    && step.WriteFail? && step.worker < |m.workers| && m.workers[step.worker].FailureRead?
    && var p := m.workers[step.worker];
    IsOpen(m.db.chunks, p.number) && !p.read.SttFailed? && p.number in m.everFailed
  }

  // How many steps of a run do so.
  function Recounts(m: Machine, steps: seq<Step>): nat {
    if steps == [] then 0
    else
      var init, last := steps[..|steps| - 1], steps[|steps| - 1];
      if CountsAgain(After(m, init), last) then Recounts(m, init) + 1 else Recounts(m, init)
  }

  // Every number that ever failed is counted, or a worker is about to count it,
  // and `again` failures are counted beyond that.
  ghost predicate FailedCounted(m: Machine, again: nat) {
    && Ordered(m.db.chunks)
    && CountsFailures(m, again)
    && (forall n :: FailedAt(m.db.chunks, n) ==> n in m.everFailed)
    && forall w :: 0 <= w < |m.workers| ==> ReadKnows(m.workers[w], m.everFailed)
  }

  // The counter, the workers and the history of failures.
  predicate CountsFailures(m: Machine, again: nat) {
    m.db.conversation.failedCount + Tally(m.workers, FailureStored) == |m.everFailed| + again
  }

  function Again(m: Machine, step: Step, again: nat): nat {
    if CountsAgain(m, step) then again + 1 else again
  }

  lemma WriteFailTally(m: Machine, w: nat, again: nat)
    requires CountsFailures(m, again) && w < |m.workers| && ReadKnows(m.workers[w], m.everFailed)
    ensures CountsFailures(DoWriteFail(m, w), Again(m, WriteFail(w), again))
  {
    TallyEnter(m.workers, w, FailureStored, FailureStored);
    TallyEnter(m.workers, w, Idle, FailureStored);
    if m.workers[w].FailureRead? && m.workers[w].number in m.everFailed {
      assert m.everFailed + {m.workers[w].number} == m.everFailed;
    }
  }

  lemma OtherStepsTally(m: Machine, w: nat, p: Phase)
    requires w < |m.workers| && !p.FailureStored?
    ensures Tally(m.workers[w := p], FailureStored) == Tally(m.workers, FailureStored) - if m.workers[w].FailureStored? then 1 else 0
  {
    TallyEnter(m.workers, w, p, FailureStored);
  }

  predicate KeepsFailures(m: Machine, after: Machine) {
    && after.db.conversation.failedCount + Tally(after.workers, FailureStored) ==
       m.db.conversation.failedCount + Tally(m.workers, FailureStored)
    && after.everFailed == m.everFailed
  }

  lemma TranscriptStepsKeep(m: Machine, w: nat, n: int, text: string)
    ensures KeepsFailures(m, DoComplete(m, w, n, text)) && KeepsFailures(m, DoCountCompletion(m, w))
  {
    if w < |m.workers| {
      OtherStepsTally(m, w, TranscriptStored);
      OtherStepsTally(m, w, Idle);
    }
  }

  lemma FailureStepsKeep(m: Machine, w: nat, n: int, terminal: bool, permanent: bool)
    ensures KeepsFailures(m, DoReadForFail(m, w, n, terminal, permanent)) && KeepsFailures(m, DoCountFail(m, w))
  {
    if w < |m.workers| {
      OtherStepsTally(m, w, Idle);
      if ReadForFailure(m.db, n).Some? {
        OtherStepsTally(m, w, FailureRead(n, ReadForFailure(m.db, n).value, terminal, permanent));
      }
    }
  }

  lemma WindowStepsKeep(m: Machine, w: nat, doc: Window, owned: set<int>)
    ensures KeepsFailures(m, DoInsertWindow(m, w, doc, owned))
  {
    if w < |m.workers| {
      OtherStepsTally(m, w, WindowStored(UpsertWindow(m.db.windows, doc).1, owned));
    }
  }

  lemma ClaimStepKeeps(m: Machine, w: nat)
    ensures KeepsFailures(m, DoClaim(m, w))
  {
    if w < |m.workers| {
      OtherStepsTally(m, w, Idle);
    }
  }

  lemma StatusStepsKeep(m: Machine, w: nat, target: ConversationStatus)
    ensures KeepsFailures(m, DoReadStatus(m, w, target)) && KeepsFailures(m, DoWriteStatus(m, w))
  {
    if w < |m.workers| {
      OtherStepsTally(m, w, StatusRead(m.db.conversation.status, target));
      OtherStepsTally(m, w, Idle);
    }
  }

  // Only writing a failure changes what is counted or about to be.
  lemma OthersKeepFailures(m: Machine, step: Step)
    requires !step.WriteFail?
    ensures KeepsFailures(m, Next(m, step))
  {
    match step
    case Complete(w, k, text) => TranscriptStepsKeep(m, w, k, text);
    case CountCompletion(w) => TranscriptStepsKeep(m, w, 0, "");
    case ReadForFail(w, n, terminal, permanent) => FailureStepsKeep(m, w, n, terminal, permanent);
    case CountFail(w) => FailureStepsKeep(m, w, 0, false, false);
    case InsertWindow(w, doc, owned) => WindowStepsKeep(m, w, doc, owned);
    case ClaimChunks(w) => ClaimStepKeeps(m, w);
    case ReadStatus(w, target) => StatusStepsKeep(m, w, target);
    case WriteStatus(w) => StatusStepsKeep(m, w, Failed);
    case _ =>
  }

  lemma CountsFailuresNext(m: Machine, step: Step, again: nat)
    requires CountsFailures(m, again) && forall w :: 0 <= w < |m.workers| ==> ReadKnows(m.workers[w], m.everFailed)
    ensures CountsFailures(Next(m, step), Again(m, step, again))
  {
    if !step.WriteFail? {
      OthersKeepFailures(m, step);
    } else if step.worker < |m.workers| {
      WriteFailTally(m, step.worker, again);
    }
  }

  lemma ReadsKnowNext(m: Machine, step: Step, w: nat)
    requires w < |Next(m, step).workers| == |m.workers| && ReadKnows(m.workers[w], m.everFailed)
    requires forall n :: FailedAt(m.db.chunks, n) ==> n in m.everFailed
    ensures ReadKnows(Next(m, step).workers[w], Next(m, step).everFailed)
  {
    if step.ReadForFail? {
      assert FailedAt(m.db.chunks, step.number) ==> step.number in m.everFailed;
    }
  }

  lemma WorkersStay(m: Machine, step: Step)
    ensures |Next(m, step).workers| == |m.workers| && m.everFailed <= Next(m, step).everFailed
  {
  }

  lemma FailedCountedNext(m: Machine, step: Step, again: nat)
    requires FailedCounted(m, again)
    ensures FailedCounted(Next(m, step), Again(m, step, again))
  {
    StaysOrdered(m, step);
    CountsFailuresNext(m, step, again);
    WorkersStay(m, step);
    forall n | FailedAt(Next(m, step).db.chunks, n)
      ensures n in Next(m, step).everFailed
    {
      ChunkEvolves(m, step, n);
    }
    forall w | 0 <= w < |m.workers|
      ensures ReadKnows(Next(m, step).workers[w], Next(m, step).everFailed)
    {
      ReadsKnowNext(m, step, w);
    }
  }

  lemma FailedAreKnown(m: Machine, again: nat)
    requires FailedCounted(m, again)
    ensures CountStt(m.db.chunks, SttFailed) <= |m.everFailed|
  {
    forall i | 0 <= i < |m.db.chunks| && m.db.chunks[i].stt == SttFailed
      ensures m.db.chunks[i].speech.sequence in m.everFailed
    {
      LookupAt(m.db.chunks, i);
      assert FailedAt(m.db.chunks, m.db.chunks[i].speech.sequence);
    }
    CountedWithin(m.db.chunks, SttFailed, m.everFailed);
  }

  lemma {:induction false} CountedAfter(m: Machine, steps: seq<Step>)
    requires CompletedCounted(m) && FailedCounted(m, 0)
    ensures CompletedCounted(After(m, steps)) && FailedCounted(After(m, steps), Recounts(m, steps))
  {
    if steps != [] {
      var init, last := steps[..|steps| - 1], steps[|steps| - 1];
      CountedAfter(m, init);
      CompletedCountedNext(After(m, init), last);
      FailedCountedNext(After(m, init), last, Recounts(m, init));
    }
  }

  // The two counters, at every point of every run: the one of transcripts is
  // exact, the one of failures exceeds them by the failures counted again.
  lemma CountersOverRuns(m: Machine, steps: seq<Step>)
    requires Initial(m)
    ensures var r := After(m, steps);
            && r.db.conversation.completedCount + Tally(r.workers, TranscriptStored) == CountStt(r.db.chunks, SttCompleted)
            && r.db.conversation.failedCount + Tally(r.workers, FailureStored) == |r.everFailed| + Recounts(m, steps)
            && |r.everFailed| >= CountStt(r.db.chunks, SttFailed)
  {
    TallyIdle(m.workers, TranscriptStored);
    TallyIdle(m.workers, FailureStored);
    CountedAfter(m, steps);
    FailedAreKnown(After(m, steps), Recounts(m, steps));
  }

  predicate CountsAgainAt(m: Machine, steps: seq<Step>, i: nat) {
    i < |steps| && CountsAgain(After(m, steps[..i]), steps[i])
  }

  lemma {:induction false} SameCountAgain(m: Machine, steps: seq<Step>, k: nat, i: nat)
    requires i < k <= |steps|
    ensures CountsAgainAt(m, steps[..k], i) <==> CountsAgainAt(m, steps, i)
  {
    TakeTake(steps, i, k);
  }

  lemma {:induction false} CountedOnce(m: Machine, steps: seq<Step>, i: nat)
    requires Recounts(m, steps) == 0
    ensures !CountsAgainAt(m, steps, i)
  {
    if i < |steps| - 1 {
      CountedOnce(m, steps[..|steps| - 1], i);
      SameCountAgain(m, steps, |steps| - 1, i);
    }
  }

  lemma {:induction false} CountedTwice(m: Machine, steps: seq<Step>) returns (i: nat)
    requires Recounts(m, steps) > 0
    ensures CountsAgainAt(m, steps, i)
  {
    i := |steps| - 1;
    if Recounts(m, steps[..i]) > 0 {
      var k := CountedTwice(m, steps[..i]);
      SameCountAgain(m, steps, i, k);
      i := k;
    }
  }

  // The counter of failures is exact if and only if no failure is counted again.
  lemma FailureCounterIsExact(m: Machine, steps: seq<Step>)
    requires Initial(m)
    ensures var r := After(m, steps);
            r.db.conversation.failedCount + Tally(r.workers, FailureStored) == |r.everFailed| <==>
            forall i :: !CountsAgainAt(m, steps, i)
  {
    CountersOverRuns(m, steps);
    if Recounts(m, steps) > 0 {
      var i := CountedTwice(m, steps);
    } else {
      forall i: nat
        ensures !CountsAgainAt(m, steps, i)
      {
        CountedOnce(m, steps, i);
      }
    }
  }

  // ----- the status of the conversation

  predicate IsPath(statuses: seq<ConversationStatus>) {
    forall i, j :: 0 <= i && j == i + 1 < |statuses| ==> MayMove(statuses[i], statuses[j])
  }

  predicate ReadIsValid(p: Phase) {
    p.StatusRead? ==> MayMove(p.seen, p.target)
  }

  ghost predicate Followed(m: Machine) {
    && m.statuses != [] && m.statuses[|m.statuses| - 1] == m.db.conversation.status
    && IsPath(m.statuses)
    && forall w :: 0 <= w < |m.workers| ==> ReadIsValid(m.workers[w])
  }

  lemma PathGrows(statuses: seq<ConversationStatus>, target: ConversationStatus)
    requires IsPath(statuses) && (statuses != [] ==> MayMove(statuses[|statuses| - 1], target))
    ensures IsPath(statuses + [target])
  {
    var after := statuses + [target];
    forall i, j | 0 <= i && j == i + 1 < |after|
      ensures MayMove(after[i], after[j])
    {
      assert after[i] == statuses[i];
    }
  }

  // A write of the status that goes through.
  lemma StatusWritten(m: Machine, conversation: Conversation)
    requires Followed(m) && MayMove(m.db.conversation.status, conversation.status)
    ensures Followed(WithStatus(m, conversation))
  {
    PathGrows(m.statuses, conversation.status);
  }

  lemma StatusReadsValid(m: Machine, step: Step, w: nat)
    requires w < |Next(m, step).workers| == |m.workers| && ReadIsValid(m.workers[w])
    ensures ReadIsValid(Next(m, step).workers[w])
  {
  }

  // Also the direct write of a failure follows the table.
  lemma FailureFollows(conversation: Conversation)
    ensures MayMove(conversation.status, FailConversation(conversation).status)
  {
  }

  lemma FollowedNext(m: Machine, step: Step)
    requires Followed(m)
    ensures Followed(Next(m, step)) && MayMove(m.db.conversation.status, Next(m, step).db.conversation.status)
    ensures m.statuses <= Next(m, step).statuses
  {
    WorkersStay(m, step);
    forall w | 0 <= w < |m.workers|
      ensures ReadIsValid(Next(m, step).workers[w])
    {
      StatusReadsValid(m, step, w);
    }
    if step.WriteStatus? && step.worker < |m.workers| && m.workers[step.worker].StatusRead? {
      var written := StoreStatus(m.db.conversation, m.workers[step.worker].seen, m.workers[step.worker].target);
      assert ReadIsValid(m.workers[step.worker]);
      StatusWritten(m, written.0);
    } else if step.GiveUp? {
      FailureFollows(m.db.conversation);
      StatusWritten(m, FailConversation(m.db.conversation));
    }
  }

  // The statuses of a run are a path in the table, and no run leaves COMPLETED.
  lemma {:induction false} StatusOverRuns(m: Machine, steps: seq<Step>)
    requires Followed(m)
    ensures Followed(After(m, steps)) && m.statuses <= After(m, steps).statuses
    ensures m.db.conversation.status.Completed? ==> After(m, steps).db.conversation.status.Completed?
  {
    if steps != [] {
      StatusOverRuns(m, steps[..|steps| - 1]);
      FollowedNext(After(m, steps[..|steps| - 1]), steps[|steps| - 1]);
    }
  }

  // ----- attempts at a window

  predicate Attempted(w: StoredWindow, releases: nat) {
    w.attemptCount <= releases + if w.status.WindowProcessing? || w.status.WindowCompleted? then 1 else 0
  }

  ghost predicate AllAttempted(m: Machine) {
    && |m.releases| == |m.db.windows|
    && forall i :: 0 <= i < |m.db.windows| ==> Attempted(m.db.windows[i], m.releases[i])
  }

  lemma AllAttemptedNext(m: Machine, step: Step)
    requires AllAttempted(m)
    ensures AllAttempted(Next(m, step))
  {
    if step.InsertWindow? {
      FoundWindow(m.db.windows, step.doc.sequenceStart, step.doc.sequenceEnd);
    }
  }

  // A window is granted at most once more than it was failed or reclaimed.
  lemma {:induction false} AttemptsOverRuns(m: Machine, steps: seq<Step>)
    requires AllAttempted(m)
    ensures AllAttempted(After(m, steps))
    ensures forall i :: 0 <= i < |After(m, steps).db.windows| ==>
                          After(m, steps).db.windows[i].attemptCount <= 1 + After(m, steps).releases[i]
  {
    if steps != [] {
      AttemptsOverRuns(m, steps[..|steps| - 1]);
      AllAttemptedNext(After(m, steps[..|steps| - 1]), steps[|steps| - 1]);
    }
    assert forall i :: 0 <= i < |After(m, steps).db.windows| ==>
                         Attempted(After(m, steps).db.windows[i], After(m, steps).releases[i]);
  }

  lemma InitialHolds(m: Machine)
    requires Initial(m)
    ensures Sound(m) && CompletedCounted(m) && FailedCounted(m, 0) && Followed(m) && AllAttempted(m)
  {
    TallyIdle(m.workers, TranscriptStored);
    TallyIdle(m.workers, FailureStored);
  }

  // Two workers have read the same pending chunk.
  lemma BothRead(m: Machine)
    requires Initial(m) && m.workers == [Idle, Idle]
    ensures var both := After(m, [Record(0, 0), ReadForFail(0, 0, false, false)] + [ReadForFail(1, 0, false, false)]);
            var read := FailureRead(0, SttPending, false, false);
            && both.db.chunks == [NewChunk(0, 0)] && both.workers == [read, read]
            && both.everFailed == {} && both.db.conversation.failedCount == 0
  {
    AfterTwo(m, Record(0, 0), ReadForFail(0, 0, false, false));
    AfterSnoc(m, [Record(0, 0), ReadForFail(0, 0, false, false)], ReadForFail(1, 0, false, false));
  }

  lemma BothCount(m: Machine)
    requires m.db.chunks == [NewChunk(0, 0)] && m.everFailed == {} && m.db.conversation.failedCount == 0
    requires var read := FailureRead(0, SttPending, false, false); m.workers == [read, read]
    ensures var r := Next(Next(Next(Next(m, WriteFail(0)), CountFail(0)), WriteFail(1)), CountFail(1));
            && r.db.conversation.failedCount == 2 && r.workers == [Idle, Idle]
            && |r.db.chunks| == 1 && r.everFailed == {0}
  {
    var one := Next(Next(m, WriteFail(0)), CountFail(0));
    assert one.db.chunks == [FailedFrom(NewChunk(0, 0), false, false)];
    assert one.workers == [Idle, FailureRead(0, SttPending, false, false)];
  }

  // Two workers that read the same pending chunk both count its failure ...
  lemma FailureCountedTwice(m: Machine)
    requires Initial(m) && m.workers == [Idle, Idle]
    ensures exists steps :: var r := After(m, steps);
                            && r.db.conversation.failedCount == 2 && AllIdle(r.workers)
                            && |r.db.chunks| == 1 && r.everFailed == {0}
  {
    var both := [Record(0, 0), ReadForFail(0, 0, false, false)] + [ReadForFail(1, 0, false, false)];
    BothRead(m);
    BothCount(After(m, both));
    AfterSnoc(m, both, WriteFail(0));
    AfterSnoc(m, both + [WriteFail(0)], CountFail(0));
    AfterSnoc(m, both + [WriteFail(0)] + [CountFail(0)], WriteFail(1));
    AfterSnoc(m, both + [WriteFail(0)] + [CountFail(0)] + [WriteFail(1)], CountFail(1));
    assert AllIdle(After(m, both + [WriteFail(0)] + [CountFail(0)] + [WriteFail(1)] + [CountFail(1)]).workers);
  }

  lemma FailsFirst(m: Machine)
    requires m.db.chunks == [NewChunk(0, 0)] && m.everFailed == {} && m.db.conversation.failedCount == 0
    requires m.workers == [FailureRead(0, SttPending, false, false)]
    ensures var r := Next(Next(m, WriteFail(0)), CountFail(0));
            && r.db.chunks == [FailedFrom(NewChunk(0, 0), false, false)]
            && r.workers == [Idle] && r.everFailed == {0} && r.db.conversation.failedCount == 1
  {
    var written := Next(m, WriteFail(0));
    assert written.db.chunks == [FailedFrom(NewChunk(0, 0), false, false)];
    assert written.workers == [FailureStored] && written.everFailed == {0};
  }

  lemma TakesUp(m: Machine, c: Chunk)
    requires m.db.chunks == [c] && c.speech.sequence == 0 && c.stt.SttFailed? && !c.terminal
    ensures Next(m, StartProcessing(0)) == m.(db := m.db.(chunks := [c.(stt := SttProcessing)]))
  {
    assert Put([c], c.(stt := SttProcessing)) == [c.(stt := SttProcessing)];
  }

  // One worker has failed, counted it, and taken the chunk up again.
  lemma FailedOnce(m: Machine)
    requires m.db.chunks == [NewChunk(0, 0)] && m.everFailed == {} && m.db.conversation.failedCount == 0
    requires m.workers == [FailureRead(0, SttPending, false, false)]
    ensures var r := Next(Next(Next(m, WriteFail(0)), CountFail(0)), StartProcessing(0));
            && r.db.chunks == [FailedFrom(NewChunk(0, 0), false, false).(stt := SttProcessing)]
            && r.workers == [Idle] && r.everFailed == {0} && r.db.conversation.failedCount == 1
  {
    FailsFirst(m);
    TakesUp(Next(Next(m, WriteFail(0)), CountFail(0)), FailedFrom(NewChunk(0, 0), false, false));
  }

  lemma FailsAgain(m: Machine, c: Chunk)
    requires m.db.chunks == [c] && c.speech.sequence == 0 && c.stt.SttProcessing? && !c.terminal
    requires m.workers == [Idle] && m.everFailed == {0} && m.db.conversation.failedCount == 1
    ensures var r := Next(Next(Next(m, ReadForFail(0, 0, false, false)), WriteFail(0)), CountFail(0));
            && r.db.conversation.failedCount == 2 && r.workers == [Idle] && |r.db.chunks| == 1 && r.everFailed == {0}
  {
    var read := Next(m, ReadForFail(0, 0, false, false));
    assert read.workers == [FailureRead(0, SttProcessing, false, false)] && read.db == m.db;
    var written := Next(read, WriteFail(0));
    assert written.workers == [FailureStored];
  }

  // ... and so does a single worker that tries the chunk once more.
  lemma RetryCountedTwice(m: Machine)
    requires Initial(m) && m.workers == [Idle]
    ensures exists steps :: var r := After(m, steps);
                            && r.db.conversation.failedCount == 2 && AllIdle(r.workers)
                            && |r.db.chunks| == 1 && r.everFailed == {0}
  {
    var taken := [Record(0, 0), ReadForFail(0, 0, false, false)];
    var retried := taken + [WriteFail(0)] + [CountFail(0)] + [StartProcessing(0)];
    AfterTwo(m, Record(0, 0), ReadForFail(0, 0, false, false));
    FailedOnce(After(m, taken));
    AfterSnoc(m, taken, WriteFail(0));
    AfterSnoc(m, taken + [WriteFail(0)], CountFail(0));
    AfterSnoc(m, taken + [WriteFail(0)] + [CountFail(0)], StartProcessing(0));
    FailsAgain(After(m, retried), FailedFrom(NewChunk(0, 0), false, false).(stt := SttProcessing));
    AfterSnoc(m, retried, ReadForFail(0, 0, false, false));
    AfterSnoc(m, retried + [ReadForFail(0, 0, false, false)], WriteFail(0));
    AfterSnoc(m, retried + [ReadForFail(0, 0, false, false)] + [WriteFail(0)], CountFail(0));
    assert AllIdle(After(m, retried + [ReadForFail(0, 0, false, false)] + [WriteFail(0)] + [CountFail(0)]).workers);
  }

  lemma AfterSnoc(m: Machine, steps: seq<Step>, step: Step)
    ensures After(m, steps + [step]) == Next(After(m, steps), step)
  {
    Snoc(steps, step);
  }

  lemma AfterTwo(m: Machine, a: Step, b: Step)
    ensures After(m, [a, b]) == Next(Next(m, a), b)
  {
    AfterSnoc(m, [], a);
    AfterSnoc(m, [a], b);
    assert [] + [a] == [a] && [a] + [b] == [a, b];
  }
}

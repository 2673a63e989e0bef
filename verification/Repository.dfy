// The conditional writes of the repository, one function a write
// (services/conversation/repository.py).

module Repository {
  import opened Seqs
  import opened Text
  import opened Models
  import opened Windowing
  import opened Store
  import opened Lookups

  // ----- one chunk

  // Writes the document with the same number, if there is one.
  function Put(chunks: seq<Chunk>, c: Chunk): (r: seq<Chunk>)
    ensures |r| == |chunks|
  {
    if chunks == [] then []
    else if chunks[|chunks| - 1].speech.sequence == c.speech.sequence then chunks[..|chunks| - 1] + [c]
    else Put(chunks[..|chunks| - 1], c) + [chunks[|chunks| - 1]]
  }

  // Inserts the document unless its number is taken.
  function Insert(chunks: seq<Chunk>, c: Chunk): seq<Chunk> {
    if chunks == [] then [c]
    else
      var init, last := chunks[..|chunks| - 1], chunks[|chunks| - 1];
      if last.speech.sequence < c.speech.sequence then chunks + [c]
      else if last.speech.sequence == c.speech.sequence then chunks
      else Insert(init, c) + [last]
  }

  function NewChunk(n: nat, durationMs: nat): Chunk {
    Chunk(Speech(n, "", durationMs), SttPending, false, false, Unprocessed, None, None)
  }

  function TranscribedFrom(c: Chunk, text: string): Chunk {
    c.(speech := c.speech.(text := Strip(text)), stt := SttCompleted, terminal := false, permanentFailure := false, exclusion := None)
  }

  function FailedFrom(c: Chunk, terminal: bool, permanent: bool): Chunk {
    c.(stt := SttFailed, terminal := terminal, permanentFailure := permanent,
    exclusion := if terminal then Some(SttFailure) else c.exclusion)
  }

  predicate MayComplete(chunks: seq<Chunk>, n: int) {
    Lookup(chunks, n).Some? && !Lookup(chunks, n).value.stt.SttCompleted?
  }

  // Not completed and not failed for good.
  predicate IsOpen(chunks: seq<Chunk>, n: int) {
    MayComplete(chunks, n) && !Lookup(chunks, n).value.terminal
  }

  predicate IsProcessingAt(chunks: seq<Chunk>, n: int) {
    Lookup(chunks, n).Some? && Lookup(chunks, n).value.stt.SttProcessing?
  }

  // `record_audio_chunk`, for the transcript it prepares
  function RecordAudio(db: Db, n: nat, durationMs: nat): Db {
    db.(chunks := Insert(db.chunks, NewChunk(n, durationMs)))
  }

  // `complete_transcript_chunk`: the document, then the counter
  function StoreTranscript(db: Db, n: int, text: string): (Db, bool) {
    if MayComplete(db.chunks, n) then
      (db.(chunks := Put(db.chunks, TranscribedFrom(Lookup(db.chunks, n).value, text))), true)
    else (db, false)
  }

  function CountTranscript(db: Db): Db {
    db.(conversation := db.conversation.(completedCount := db.conversation.completedCount + 1))
  }

  // `mark_transcript_chunk_processing`
  function StartTranscription(db: Db, n: int): (Db, bool) {
    if IsOpen(db.chunks, n) then (db.(chunks := Put(db.chunks, Lookup(db.chunks, n).value.(stt := SttProcessing))), true)
    else (db, false)
  }

  // `fail_transcript_chunk`: the status it reads first, unless that ends the call ...
  function ReadForFailure(db: Db, n: int): Option<SttStatus> {
    match Lookup(db.chunks, n)
    case None => None
    case Some(c) => if c.stt.SttCompleted? || (c.stt.SttFailed? && c.terminal) then None else Some(c.stt)
  }

  // ... the document, and the counter.
  function StoreFailure(db: Db, n: int, terminal: bool, permanent: bool): (Db, bool) {
    if IsOpen(db.chunks, n) then
      (db.(chunks := Put(db.chunks, FailedFrom(Lookup(db.chunks, n).value, terminal, permanent))), true)
    else (db, false)
  }

  function CountFailure(db: Db): Db {
    db.(conversation := db.conversation.(failedCount := db.conversation.failedCount + 1))
  }

  // `reclaim_stale_stt_chunks`, the write for one stale chunk
  function ReclaimChunk(db: Db, n: int): Db {
    if IsProcessingAt(db.chunks, n) then db.(chunks := Put(db.chunks, Lookup(db.chunks, n).value.(stt := SttPending))) else db
  }

  function ArchiveOne(c: Chunk): Chunk {
    if c.stt.SttCompleted? then c.(processing := Archived) else c
  }

  // `schedule_transcript_expiry`
  function ArchivedAll(chunks: seq<Chunk>): (r: seq<Chunk>)
    ensures |r| == |chunks|
  {
    if chunks == [] then [] else ArchivedAll(chunks[..|chunks| - 1]) + [ArchiveOne(chunks[|chunks| - 1])]
  }

  // ----- one window

  // `create_conversation_window`, its upsert
  function UpsertWindow(windows: seq<StoredWindow>, doc: Window): (r: (seq<StoredWindow>, nat))
    ensures r.1 < |r.0|
  {
    FoundWindow(windows, doc.sequenceStart, doc.sequenceEnd);
    match FindWindow(windows, doc.sequenceStart, doc.sequenceEnd)
    case Some(i) => (windows, i)
    case None => (windows + [NewStoredWindow(doc)], |windows|)
  }

  predicate MayGrant(w: StoredWindow) {
    w.status.WindowPending? || w.status.WindowFailed? || w.status.WindowRetrying?
  }

  // `mark_window_processing`
  function Granted(w: StoredWindow): StoredWindow {
    if MayGrant(w) then w.(status := WindowProcessing, attemptCount := w.attemptCount + 1) else w
  }

  // `complete_window`
  function CompletedWindow(w: StoredWindow, skipped: bool, persistenceOk: bool): StoredWindow {
    w.(status := WindowCompleted, extractionSkipped := skipped, persistenceOk := persistenceOk)
  }

  // `fail_window`
  function FailedWindow(w: StoredWindow): StoredWindow {
    w.(status := WindowFailed)
  }

  // `reclaim_stale_processing_windows`, the write for one stale window
  function ReclaimedWindow(w: StoredWindow): StoredWindow {
    if w.status.WindowProcessing? then w.(status := WindowPending, queued := false) else w
  }

  // `mark_window_queued`
  function QueuedWindow(w: StoredWindow): StoredWindow {
    w.(queued := true)
  }

  // ----- the conversation

  // `transition`: the status it reads, and the write that needs that status still.
  function StoreStatus(conversation: Conversation, read: ConversationStatus, target: ConversationStatus): (Conversation, bool) {
    if conversation.status == read then (conversation.(status := target), true) else (conversation, false)
  }

  // `mark_conversation_failed`
  function FailConversation(conversation: Conversation): Conversation {
    if conversation.status.Completed? then conversation else conversation.(status := Failed)
  }

  // ----- facts about writing one chunk

  lemma {:induction false} PutLookup(chunks: seq<Chunk>, c: Chunk, n: int)
    ensures Lookup(Put(chunks, c), n) ==
            if n == c.speech.sequence && Lookup(chunks, n).Some? then Some(c) else Lookup(chunks, n)
  {
    if chunks != [] {
      var init, last := chunks[..|chunks| - 1], chunks[|chunks| - 1];
      if last.speech.sequence == c.speech.sequence {
        Snoc(init, c);
      } else {
        PutLookup(init, c, n);
        Snoc(Put(init, c), last);
      }
    }
  }

  lemma {:induction false} PutOrdered(chunks: seq<Chunk>, c: Chunk, limit: int)
    requires Ordered(chunks) && forall i :: 0 <= i < |chunks| ==> chunks[i].speech.sequence < limit
    ensures Ordered(Put(chunks, c)) && forall i :: 0 <= i < |chunks| ==> Put(chunks, c)[i].speech.sequence < limit
  {
    if chunks != [] {
      PutOrdered(chunks[..|chunks| - 1], c, chunks[|chunks| - 1].speech.sequence);
    }
  }

  lemma {:induction false} InsertLookup(chunks: seq<Chunk>, c: Chunk, n: int)
    requires Ordered(chunks)
    ensures Lookup(Insert(chunks, c), n) ==
            if n == c.speech.sequence && Lookup(chunks, n).None? then Some(c) else Lookup(chunks, n)
  {
    if chunks != [] {
      var init, last := chunks[..|chunks| - 1], chunks[|chunks| - 1];
      if last.speech.sequence < c.speech.sequence {
        Snoc(chunks, c);
        LookupAbove(chunks, c.speech.sequence);
      } else if last.speech.sequence > c.speech.sequence {
        InsertLookup(init, c, n);
        Snoc(Insert(init, c), last);
        if last.speech.sequence == n {
          LookupAbove(init, n);
        }
      }
    }
  }

  lemma {:induction false} InsertOrdered(chunks: seq<Chunk>, c: Chunk, limit: int)
    requires Ordered(chunks) && forall i :: 0 <= i < |chunks| ==> chunks[i].speech.sequence < limit
    requires c.speech.sequence < limit
    ensures Ordered(Insert(chunks, c))
    ensures forall i :: 0 <= i < |Insert(chunks, c)| ==> Insert(chunks, c)[i].speech.sequence < limit
  {
    if chunks != [] && chunks[|chunks| - 1].speech.sequence > c.speech.sequence {
      InsertOrdered(chunks[..|chunks| - 1], c, chunks[|chunks| - 1].speech.sequence);
    }
  }

  lemma {:induction false} ArchivedLookup(chunks: seq<Chunk>, n: int)
    ensures Lookup(ArchivedAll(chunks), n) == match Lookup(chunks, n) case None => None case Some(c) => Some(ArchiveOne(c))
  {
    if chunks != [] {
      ArchivedLookup(chunks[..|chunks| - 1], n);
      Snoc(ArchivedAll(chunks[..|chunks| - 1]), ArchiveOne(chunks[|chunks| - 1]));
    }
  }

  lemma {:induction false} ArchivedOrdered(chunks: seq<Chunk>, limit: int)
    requires Ordered(chunks) && forall i :: 0 <= i < |chunks| ==> chunks[i].speech.sequence < limit
    ensures Ordered(ArchivedAll(chunks)) && forall i :: 0 <= i < |chunks| ==> ArchivedAll(chunks)[i].speech.sequence < limit
  {
    if chunks != [] {
      ArchivedOrdered(chunks[..|chunks| - 1], chunks[|chunks| - 1].speech.sequence);
    }
  }

  function CountStt(chunks: seq<Chunk>, stt: SttStatus): nat {
    if chunks == [] then 0
    else if chunks[|chunks| - 1].stt == stt then CountStt(chunks[..|chunks| - 1], stt) + 1
    else CountStt(chunks[..|chunks| - 1], stt)
  }

  lemma {:induction false} PutCounts(chunks: seq<Chunk>, c: Chunk, stt: SttStatus)
    requires Lookup(chunks, c.speech.sequence).Some?
    ensures CountStt(Put(chunks, c), stt) ==
            CountStt(chunks, stt) - (if Lookup(chunks, c.speech.sequence).value.stt == stt then 1 else 0)
            + if c.stt == stt then 1 else 0
  {
    var init, last := chunks[..|chunks| - 1], chunks[|chunks| - 1];
    if last.speech.sequence == c.speech.sequence {
      Snoc(init, c);
    } else {
      PutCounts(init, c, stt);
      Snoc(Put(init, c), last);
    }
  }

  lemma {:induction false} InsertCounts(chunks: seq<Chunk>, c: Chunk, stt: SttStatus)
    requires c.stt != stt
    ensures CountStt(Insert(chunks, c), stt) == CountStt(chunks, stt)
  {
    if chunks != [] {
      var init, last := chunks[..|chunks| - 1], chunks[|chunks| - 1];
      if last.speech.sequence < c.speech.sequence {
        Snoc(chunks, c);
      } else if last.speech.sequence > c.speech.sequence {
        InsertCounts(init, c, stt);
        Snoc(Insert(init, c), last);
      }
    }
  }

  lemma {:induction false} ArchivedCounts(chunks: seq<Chunk>, stt: SttStatus)
    ensures CountStt(ArchivedAll(chunks), stt) == CountStt(chunks, stt)
  {
    if chunks != [] {
      ArchivedCounts(chunks[..|chunks| - 1], stt);
      Snoc(ArchivedAll(chunks[..|chunks| - 1]), ArchiveOne(chunks[|chunks| - 1]));
    }
  }

  lemma {:induction false} ExcludedCounts(chunks: seq<Chunk>, numbers: set<int>, reason: ExclusionReason, stt: SttStatus)
    ensures CountStt(Excluded(chunks, numbers, reason), stt) == CountStt(chunks, stt)
  {
    if chunks != [] {
      var init, last := chunks[..|chunks| - 1], chunks[|chunks| - 1];
      ExcludedCounts(init, numbers, reason, stt);
      Snoc(Excluded(init, numbers, reason), ExcludeOne(last, numbers, reason));
    }
  }

  lemma {:induction false} ClaimedCounts(chunks: seq<Chunk>, numbers: set<int>, id: nat, stt: SttStatus)
    ensures CountStt(Claimed(chunks, numbers, id), stt) == CountStt(chunks, stt)
  {
    if chunks != [] {
      var init, last := chunks[..|chunks| - 1], chunks[|chunks| - 1];
      ClaimedCounts(init, numbers, id, stt);
      Snoc(Claimed(init, numbers, id), ClaimOne(last, numbers, id));
    }
  }

  // Distinct chunks of one status are no more than the numbers they have.
  lemma {:induction false} CountedWithin(chunks: seq<Chunk>, stt: SttStatus, numbers: set<int>)
    requires Ordered(chunks)
    requires forall i :: 0 <= i < |chunks| && chunks[i].stt == stt ==> chunks[i].speech.sequence in numbers
    ensures CountStt(chunks, stt) <= |numbers|
  {
    if chunks != [] {
      var init, last := chunks[..|chunks| - 1], chunks[|chunks| - 1];
      if last.stt == stt {
        CountedWithin(init, stt, numbers - {last.speech.sequence});
      } else {
        CountedWithin(init, stt, numbers);
      }
    }
  }
}

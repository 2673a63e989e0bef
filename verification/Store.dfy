// The stored documents of one conversation and the conditional updates that
// the repository applies to them (services/conversation/repository.py).

module Store {
  import opened Text
  import opened Models
  import opened Windowing

  datatype StoredWindow = StoredWindow(
    doc: Window,
    status: WindowStatus,
    attemptCount: nat,
    queued: bool,
    extractionSkipped: bool,
    persistenceOk: bool
  )

  datatype Conversation = Conversation(
    status: ConversationStatus,
    // sourceType is "meeting_extension"
    isExtension: bool,
    expectedLast: Option<int>,
    // the wait for sequences that never arrived is over
    missingIsTerminal: bool,
    completedCount: nat,
    failedCount: nat
  )

  // Chunks are in ascending sequence order, one document per number; windows
  // are in the order of their creation, which is also their identifier.
  datatype Db = Db(conversation: Conversation, chunks: seq<Chunk>, windows: seq<StoredWindow>)

  predicate Ordered(chunks: seq<Chunk>) {
    forall i, j :: 0 <= i < j < |chunks| ==> chunks[i].speech.sequence < chunks[j].speech.sequence
  }

  function FirstSequence(conversation: Conversation): nat {
    if conversation.isExtension then 1 else 0
  }

  function Numbers(list: seq<nat>): set<int> {
    if list == [] then {} else Numbers(list[..|list| - 1]) + {list[|list| - 1]}
  }

  // ----- updates of many chunks

  function ExcludeOne(c: Chunk, numbers: set<int>, reason: ExclusionReason): Chunk {
    if c.processing.Unprocessed? && c.speech.sequence in numbers then c.(processing := Processed, exclusion := Some(reason))
    else c
  }

  function ClaimOne(c: Chunk, numbers: set<int>, id: nat): Chunk {
    if c.processing.Unprocessed? && c.speech.sequence in numbers then c.(processing := Processed, windowId := Some(id)) else c
  }

  // `mark_transcripts_excluded`
  function Excluded(chunks: seq<Chunk>, numbers: set<int>, reason: ExclusionReason): (r: seq<Chunk>)
    ensures |r| == |chunks|
  {
    if chunks == [] then []
    else Excluded(chunks[..|chunks| - 1], numbers, reason) + [ExcludeOne(chunks[|chunks| - 1], numbers, reason)]
  }

  // The chunk update of `create_conversation_window`
  function Claimed(chunks: seq<Chunk>, numbers: set<int>, id: nat): (r: seq<Chunk>)
    ensures |r| == |chunks|
  {
    if chunks == [] then []
    else Claimed(chunks[..|chunks| - 1], numbers, id) + [ClaimOne(chunks[|chunks| - 1], numbers, id)]
  }

  lemma {:induction false} ExcludedAt(chunks: seq<Chunk>, numbers: set<int>, reason: ExclusionReason, i: nat)
    requires i < |chunks|
    ensures Excluded(chunks, numbers, reason)[i] == ExcludeOne(chunks[i], numbers, reason)
  {
    if i < |chunks| - 1 {
      ExcludedAt(chunks[..|chunks| - 1], numbers, reason, i);
    }
  }

  lemma {:induction false} ClaimedAt(chunks: seq<Chunk>, numbers: set<int>, id: nat, i: nat)
    requires i < |chunks|
    ensures Claimed(chunks, numbers, id)[i] == ClaimOne(chunks[i], numbers, id)
  {
    if i < |chunks| - 1 {
      ClaimedAt(chunks[..|chunks| - 1], numbers, id, i);
    }
  }

  // ----- windows

  // The last window of the list sorted by `sequenceStart`; the sort keeps the
  // creation order of windows that start at the same number.
  function LastWindow(windows: seq<StoredWindow>): StoredWindow
    requires windows != []
  {
    var last := windows[|windows| - 1];
    if |windows| == 1 then last
    else
      var before := LastWindow(windows[..|windows| - 1]);
      if last.doc.sequenceStart >= before.doc.sequenceStart then last else before
  }

  // The window with the same first and last sequence number, if there is one.
  function FindWindow(windows: seq<StoredWindow>, start: nat, end: nat): Option<nat> {
    if windows == [] then None
    else
      match FindWindow(windows[..|windows| - 1], start, end)
      case Some(i) => Some(i)
      case None =>
        var doc := windows[|windows| - 1].doc;
        if doc.sequenceStart == start && doc.sequenceEnd == end then Some(|windows| - 1) else None
  }

  lemma {:induction false} FoundWindow(windows: seq<StoredWindow>, start: nat, end: nat)
    ensures match FindWindow(windows, start, end)
            case Some(i) => i < |windows| && windows[i].doc.sequenceStart == start && windows[i].doc.sequenceEnd == end
            case None => forall i :: 0 <= i < |windows| ==> windows[i].doc.sequenceStart != start || windows[i].doc.sequenceEnd != end
  {
    if windows != [] {
      FoundWindow(windows[..|windows| - 1], start, end);
    }
  }

  // A window that is kept for the final pass is completed without extraction;
  // any other one that waits for extraction is queued once.
  function Dispatched(w: StoredWindow, retained: bool): StoredWindow {
    if retained then w.(status := WindowCompleted, extractionSkipped := true, persistenceOk := true)
    else if (w.status.WindowPending? || w.status.WindowFailed? || w.status.WindowRetrying?) && !w.queued then w.(queued := true)
    else w
  }

  function NewStoredWindow(doc: Window): StoredWindow {
    StoredWindow(doc, WindowPending, 0, false, false, true)
  }

  function Stored(windows: seq<StoredWindow>, b: Built, deferred: bool): (r: (seq<StoredWindow>, nat))
    ensures r.1 < |r.0|
  {
    FoundWindow(windows, b.window.sequenceStart, b.window.sequenceEnd);
    match FindWindow(windows, b.window.sequenceStart, b.window.sequenceEnd)
    case Some(i) =>
      var retained := windows[i].doc.isFinalPartial || b.window.closeReason.ForcedFinal? || deferred;
      (windows[i := Dispatched(windows[i], retained)], i)
    case None =>
      var retained := b.window.isFinalPartial || b.window.closeReason.ForcedFinal? || deferred;
      (windows + [Dispatched(NewStoredWindow(b.window), retained)], |windows|)
  }

  // One window is stored, its owned chunks claimed and its skipped ones excluded.
  function CreateWindow(db: Db, b: Built, deferred: bool): Db {
    var stored := Stored(db.windows, b, deferred);
    var claimed := Claimed(db.chunks, Numbers(b.owned), stored.1);
    db.(windows := stored.0, chunks := Excluded(claimed, Numbers(b.skipped), EmptyTranscript))
  }

  function CreateWindows(db: Db, built: seq<Built>, deferred: bool): Db {
    if built == [] then db
    else CreateWindow(CreateWindows(db, built[..|built| - 1], deferred), built[|built| - 1], deferred)
  }
}

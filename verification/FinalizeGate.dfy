// The gate a stopped conversation passes before it is processed
// (services/conversation/finalization.py, `finalize`).

module FinalizeGate {
  import opened Text
  import opened Models
  import opened Windowing
  import opened Store
  import opened Incremental
  import opened Lookups
  import opened ForcedClose
  import opened WindowOrder
  import opened Repository
  import opened Finalization

  // What a call finds besides the stored documents: the two settings, whether a
  // PARTIAL conversation has a published extraction run, and what has gone stale.
  datatype Surroundings = Surroundings(
    incremental: bool,
    pipeline: bool,
    published: bool,
    staleChunks: set<int>,
    staleWindows: set<int>,
    staleJobs: set<int>
  )

  datatype Outcome =
    | NotStopped
    | AlreadySettled
    | WaitsForTranscripts
    | WaitsForWindows
    | HasGaps
    | HasUnwindowed
    | Passed(moved: bool)

  predicate IsSettledStatus(s: ConversationStatus) {
    s.ReadyForProcessing? || s.Validating? || s.Completed? || s.InProcessing?
  }

  // `_safe_transition`
  function SafeTransition(db: Db, target: ConversationStatus): (Db, bool) {
    var status := db.conversation.status;
    if IsSettledStatus(status) || status == target || !MayMove(status, target) then (db, false)
    else (db.(conversation := StoreStatus(db.conversation, status, target).0), true)
  }

  function ReclaimOne(c: Chunk, stale: set<int>): Chunk {
    if c.stt.SttProcessing? && !c.terminal && c.speech.sequence in stale then c.(stt := SttPending) else c
  }

  // `reclaim_stale_stt_chunks`
  function ReclaimedChunks(chunks: seq<Chunk>, stale: set<int>): (r: seq<Chunk>)
    ensures |r| == |chunks|
  {
    if chunks == [] then [] else ReclaimedChunks(chunks[..|chunks| - 1], stale) + [ReclaimOne(chunks[|chunks| - 1], stale)]
  }

  // `reclaim_stale_processing_windows`
  function ReclaimedWindows(windows: seq<StoredWindow>, stale: set<int>): (r: seq<StoredWindow>)
    ensures |r| == |windows|
  {
    if windows == [] then []
    else
      var i := |windows| - 1;
      ReclaimedWindows(windows[..i], stale) + [if i in stale then ReclaimedWindow(windows[i]) else windows[i]]
  }

  // A window whose extraction still blocks the conversation.
  predicate Blocks(w: StoredWindow) {
    !w.status.WindowCompleted? && !w.extractionSkipped && !w.doc.isFinalPartial
  }

  predicate ShouldPublish(w: StoredWindow, staleJob: bool) {
    && !w.extractionSkipped && !w.doc.isFinalPartial
    && (w.status.WindowFailed? || (w.status.WindowPending? && (!w.queued || staleJob)))
  }

  function Republished(windows: seq<StoredWindow>, stale: set<int>): (r: seq<StoredWindow>)
    ensures |r| == |windows|
  {
    if windows == [] then []
    else
      var i := |windows| - 1;
      Republished(windows[..i], stale)
      + [if Blocks(windows[i]) && ShouldPublish(windows[i], i in stale) then QueuedWindow(windows[i]) else windows[i]]
  }

  function ReopenOne(w: StoredWindow): StoredWindow {
    if IsGap(w) then QueuedWindow(FailedWindow(w)) else w
  }

  function GapsReopened(windows: seq<StoredWindow>): (r: seq<StoredWindow>)
    ensures |r| == |windows|
  {
    if windows == [] then []
    else GapsReopened(windows[..|windows| - 1]) + [ReopenOne(windows[|windows| - 1])]
  }

  // `count_unwindowed_non_empty_transcripts`
  function CountWaiting(chunks: seq<Chunk>, through: Option<int>): nat {
    if chunks == [] then 0
    else if Waits(chunks[|chunks| - 1], through) then CountWaiting(chunks[..|chunks| - 1], through) + 1
    else CountWaiting(chunks[..|chunks| - 1], through)
  }

  // The stored state once the final close is over and stale work is taken back.
  function ClosedFinally(cfg: Settings, env: Surroundings, db: Db, last: int): Db {
    var closed := Close(cfg, db, true, env.pipeline, Some(last), SessionReadiness(db, last).skippable);
    closed.(windows := ReclaimedWindows(closed.windows, env.staleWindows))
  }

  function AfterWindows(cfg: Settings, env: Surroundings, db: Db, last: int): (Db, Outcome) {
    AfterClose(env, ClosedFinally(cfg, env, db, last), last)
  }

  function AfterClose(env: Surroundings, closed: Db, last: int): (Db, Outcome) {
    if CountWaiting(closed.chunks, Some(last)) > 0 || CountWindows(closed.windows, Blocks) > 0 then
      (SafeTransition(closed.(windows := Republished(closed.windows, env.staleJobs)), Finalizing).0, WaitsForWindows)
    else if CountWindows(closed.windows, IsGap) > 0 then
      (SafeTransition(closed.(windows := GapsReopened(closed.windows)), Finalizing).0, HasGaps)
    else
      var moved := SafeTransition(closed, ReadyForProcessing);
      (moved.0, Passed(moved.1))
  }

  // Lost transcriptions are queued again and the conversation waits.
  function SentBack(env: Surroundings, db: Db): Db {
    SafeTransition(db.(chunks := ReclaimedChunks(db.chunks, env.staleChunks)), WaitingForTranscripts).0
  }

  function AfterTranscripts(db: Db, last: int): (Db, Outcome) {
    if SessionReadiness(db, last).accounting.validUnwindowed > 0 then (SafeTransition(db, Finalizing).0, HasUnwindowed)
    else
      var moved := SafeTransition(db, ReadyForProcessing);
      (moved.0, Passed(moved.1))
  }

  function Finalize(cfg: Settings, env: Surroundings, db: Db): (Db, Outcome) {
    match db.conversation.expectedLast
    case None => (db, NotStopped)
    case Some(last) =>
      if IsSettledStatus(db.conversation.status) || (db.conversation.status.Partial? && env.published) then (db, AlreadySettled)
      else if SessionReadiness(db, last).unresolved then
        (SentBack(env, db), WaitsForTranscripts)
      else if env.incremental then AfterWindows(cfg, env, db, last)
      else AfterTranscripts(db, last)
  }

  // ----- what READY means

  lemma WaitingAtEnd(db: Db, through: Option<int>, n: int)
    requires Ordered(db.chunks) && db.chunks != []
    ensures var last := db.chunks[|db.chunks| - 1];
            Waiting(db, through, n) <==>
            if n == last.speech.sequence then Waits(last, through) else Waiting(db.(chunks := db.chunks[..|db.chunks| - 1]), through, n)
    ensures !Waiting(db.(chunks := db.chunks[..|db.chunks| - 1]), through, db.chunks[|db.chunks| - 1].speech.sequence)
  {
    LookupAbove(db.chunks[..|db.chunks| - 1], db.chunks[|db.chunks| - 1].speech.sequence);
  }

  lemma {:induction false} NoneWaiting(db: Db, through: Option<int>)
    requires Ordered(db.chunks)
    ensures CountWaiting(db.chunks, through) == 0 <==> forall n :: !Waiting(db, through, n)
    decreases |db.chunks|
  {
    if db.chunks != [] {
      var init, last := db.(chunks := db.chunks[..|db.chunks| - 1]), db.chunks[|db.chunks| - 1];
      NoneWaiting(init, through);
      WaitingAtEnd(db, through, last.speech.sequence);
      forall n: int
        ensures Waiting(db, through, n) <==> Waiting(init, through, n) || (n == last.speech.sequence && Waits(last, through))
      {
        WaitingAtEnd(db, through, n);
      }
    }
  }

  lemma {:induction false} NoWindowCounted(windows: seq<StoredWindow>, holds: StoredWindow -> bool)
    ensures CountWindows(windows, holds) == 0 <==> forall i :: 0 <= i < |windows| ==> !holds(windows[i])
  {
    if windows != [] {
      NoWindowCounted(windows[..|windows| - 1], holds);
    }
  }

  lemma {:induction false} NoChunkCounted(chunks: seq<Chunk>, holds: Chunk -> bool)
    ensures Count(chunks, holds) == 0 <==> forall i :: 0 <= i < |chunks| ==> !holds(chunks[i])
  {
    if chunks != [] {
      NoChunkCounted(chunks[..|chunks| - 1], holds);
    }
  }

  // Nothing is left to do before the conversation is processed.
  predicate AllDone(db: Db, last: int) {
    && CountWaiting(db.chunks, Some(last)) == 0
    && CountWindows(db.windows, Blocks) == 0 && CountWindows(db.windows, IsGap) == 0
  }

  predicate MayBecomeReady(db: Db) {
    !IsSettledStatus(db.conversation.status) && MayMove(db.conversation.status, ReadyForProcessing)
  }

  lemma ClosedIsOrdered(cfg: Settings, env: Surroundings, db: Db, last: int)
    requires Ordered(db.chunks)
    ensures var closed := ClosedFinally(cfg, env, db, last);
            Ordered(closed.chunks) && closed.conversation == db.conversation
  {
    CloseOrdered(cfg, db, true, env.pipeline, Some(last), SessionReadiness(db, last).skippable);
  }

  // No useful chunk waits, and no window is unfinished or lost its artifacts.
  lemma AllDoneMeans(db: Db, last: int)
    requires Ordered(db.chunks)
    ensures AllDone(db, last) <==>
            && (forall n :: !Waiting(db, Some(last), n))
            && forall i :: 0 <= i < |db.windows| ==> !Blocks(db.windows[i]) && !IsGap(db.windows[i])
  {
    NoneWaiting(db, Some(last));
    NoWindowCounted(db.windows, Blocks);
    NoWindowCounted(db.windows, IsGap);
  }

  lemma MovesSafely(db: Db, target: ConversationStatus)
    requires !IsSettledStatus(db.conversation.status)
    ensures var moved := SafeTransition(db, target).0;
            && moved.chunks == db.chunks && moved.windows == db.windows
            && moved.conversation.status == if MayMove(db.conversation.status, target) then target else db.conversation.status
  {
  }

  lemma ReadyAfterWindows(cfg: Settings, env: Surroundings, db: Db, last: int)
    requires Ordered(db.chunks) && !IsSettledStatus(db.conversation.status)
    ensures var closed, result := ClosedFinally(cfg, env, db, last), AfterWindows(cfg, env, db, last).0;
            && (result.conversation.status.ReadyForProcessing? <==> MayBecomeReady(db) && AllDone(closed, last))
            && (result.conversation.status.ReadyForProcessing? ==> result.chunks == closed.chunks && result.windows == closed.windows)
  {
    var closed := ClosedFinally(cfg, env, db, last);
    ClosedIsOrdered(cfg, env, db, last);
    MovesSafely(closed.(windows := Republished(closed.windows, env.staleJobs)), Finalizing);
    MovesSafely(closed.(windows := GapsReopened(closed.windows)), Finalizing);
    MovesSafely(closed, ReadyForProcessing);
  }

  lemma FinalizeCases(cfg: Settings, env: Surroundings, db: Db, last: int)
    requires db.conversation.expectedLast == Some(last) && env.incremental && !IsSettledStatus(db.conversation.status)
    ensures Finalize(cfg, env, db).0 ==
            if db.conversation.status.Partial? && env.published then db
            else if SessionReadiness(db, last).unresolved then SentBack(env, db)
            else AfterWindows(cfg, env, db, last).0
  {
  }

  lemma SentBackWaits(env: Surroundings, db: Db)
    requires !IsSettledStatus(db.conversation.status)
    ensures !SentBack(env, db).conversation.status.ReadyForProcessing?
  {
    MovesSafely(db.(chunks := ReclaimedChunks(db.chunks, env.staleChunks)), WaitingForTranscripts);
  }

  // What a call needs to make the conversation READY: its status may move there,
  // nothing expected is unresolved, and the final close leaves neither a waiting
  // chunk nor an unfinished window.
  predicate BecomesReady(cfg: Settings, env: Surroundings, db: Db, last: int) {
    && MayBecomeReady(db) && !SessionReadiness(db, last).unresolved
    && AllDone(ClosedFinally(cfg, env, db, last), last)
  }

  lemma PublishedStays(cfg: Settings, env: Surroundings, db: Db, last: int)
    requires db.conversation.expectedLast == Some(last) && db.conversation.status.Partial? && env.published
    ensures Finalize(cfg, env, db).0 == db && !MayBecomeReady(db)
  {
  }

  lemma UnresolvedWaits(cfg: Settings, env: Surroundings, db: Db, last: int)
    requires db.conversation.expectedLast == Some(last) && env.incremental && !IsSettledStatus(db.conversation.status)
    requires SessionReadiness(db, last).unresolved && !(db.conversation.status.Partial? && env.published)
    ensures !Finalize(cfg, env, db).0.conversation.status.ReadyForProcessing?
  {
    FinalizeCases(cfg, env, db, last);
    SentBackWaits(env, db);
  }

  // With incremental processing, a call makes the conversation READY exactly
  // when nothing is left to do.
  lemma ReadyExactly(cfg: Settings, env: Surroundings, db: Db, last: int)
    requires Ordered(db.chunks) && db.conversation.expectedLast == Some(last) && env.incremental
    requires !IsSettledStatus(db.conversation.status)
    ensures Finalize(cfg, env, db).0.conversation.status.ReadyForProcessing? <==> BecomesReady(cfg, env, db, last)
    ensures BecomesReady(cfg, env, db, last) ==>
              var closed, result := ClosedFinally(cfg, env, db, last), Finalize(cfg, env, db).0;
              result.chunks == closed.chunks && result.windows == closed.windows
  {
    if db.conversation.status.Partial? && env.published {
      PublishedStays(cfg, env, db, last);
    } else if SessionReadiness(db, last).unresolved {
      UnresolvedWaits(cfg, env, db, last);
    } else {
      FinalizeCases(cfg, env, db, last);
      ReadyAfterWindows(cfg, env, db, last);
    }
  }

  // What that says of the chunks: those that waited came after the last window,
  // with nothing stranded between.
  lemma ReadyIsDrained(cfg: Settings, env: Surroundings, db: Db, last: int)
    requires Ordered(db.chunks) && InOrder(Docs(db.windows)) && !SessionReadiness(db, last).unresolved
    ensures (forall n :: !Waiting(ClosedFinally(cfg, env, db, last), Some(last), n)) <==>
            (forall n :: Waiting(db, Some(last), n) ==> Drainable(db, n))
  {
    FinalCloseDrains(cfg, db, env.pipeline, last);
    var closed := Close(cfg, db, true, env.pipeline, Some(last), SessionReadiness(db, last).skippable);
    assert forall n :: Waiting(ClosedFinally(cfg, env, db, last), Some(last), n) <==> Waiting(closed, Some(last), n);
  }

  // Without incremental processing every useful chunk already has a window or an exclusion.
  lemma ReadyWithoutWindows(cfg: Settings, env: Surroundings, db: Db, last: int)
    requires db.conversation.expectedLast == Some(last) && !env.incremental && !IsSettledStatus(db.conversation.status)
    ensures Finalize(cfg, env, db).0.conversation.status.ReadyForProcessing? <==>
            && MayBecomeReady(db)
            && !SessionReadiness(db, last).unresolved
            && forall i :: 0 <= i < |db.chunks| ==> !IsUsefulUnwindowed(db.chunks[i])
  {
    NoChunkCounted(db.chunks, IsUsefulUnwindowed);
  }

  // ----- what a call that does not pass leaves behind

  // A window that waits for extraction, or for another one.
  predicate Extractable(w: StoredWindow) {
    !w.extractionSkipped && !w.doc.isFinalPartial && (w.status == WindowFailed || w.status == WindowPending)
  }

  lemma {:induction false} RepublishedAre(windows: seq<StoredWindow>, stale: set<int>, i: nat)
    requires i < |windows|
    ensures var w := windows[i];
            Republished(windows, stale)[i] ==
            w.(queued := w.queued || Extractable(w))
  {
    if i < |windows| - 1 {
      RepublishedAre(windows[..|windows| - 1], stale, i);
    }
  }

  lemma {:induction false} ReopenedAre(windows: seq<StoredWindow>, i: nat)
    requires i < |windows|
    ensures var w := windows[i];
            GapsReopened(windows)[i] ==
            if w.status == WindowCompleted && !w.persistenceOk then w.(status := WindowFailed, queued := true) else w
  {
    if i < |windows| - 1 {
      ReopenedAre(windows[..|windows| - 1], i);
    }
  }

  lemma {:induction false} ReclaimedAre(windows: seq<StoredWindow>, stale: set<int>, i: nat)
    requires i < |windows|
    ensures var w := windows[i];
            ReclaimedWindows(windows, stale)[i] ==
            if i in stale && w.status == WindowProcessing then w.(status := WindowPending, queued := false) else w
  {
    if i < |windows| - 1 {
      ReclaimedAre(windows[..|windows| - 1], stale, i);
    }
  }

  // What the call finds of a window, once stale work is taken back.
  function TakenBack(w: StoredWindow, stale: bool): StoredWindow {
    if stale && w.status == WindowProcessing then w.(status := WindowPending, queued := false) else w
  }

  predicate MayClose(env: Surroundings, db: Db, last: int) {
    && db.conversation.expectedLast == Some(last) && env.incremental
    && !IsSettledStatus(db.conversation.status) && !(db.conversation.status.Partial? && env.published)
    && !SessionReadiness(db, last).unresolved
  }

  lemma TransitionKeeps(db: Db, target: ConversationStatus)
    ensures SafeTransition(db, target).0.windows == db.windows && SafeTransition(db, target).0.chunks == db.chunks
  {
  }

  lemma ClosesOff(cfg: Settings, env: Surroundings, db: Db, last: int)
    requires MayClose(env, db, last)
    ensures Finalize(cfg, env, db) == AfterWindows(cfg, env, db, last)
  {
  }

  lemma WindowsAfter(cfg: Settings, env: Surroundings, db: Db, last: int)
    ensures var back, result := ClosedFinally(cfg, env, db, last), AfterWindows(cfg, env, db, last);
            match result.1
            case WaitsForWindows => result.0.windows == Republished(back.windows, env.staleJobs)
            case HasGaps => result.0.windows == GapsReopened(back.windows)
            case Passed(_) => result.0.windows == back.windows
            case _ => false
  {
    var back := ClosedFinally(cfg, env, db, last);
    TransitionKeeps(back.(windows := Republished(back.windows, env.staleJobs)), Finalizing);
    TransitionKeeps(back.(windows := GapsReopened(back.windows)), Finalizing);
    TransitionKeeps(back, ReadyForProcessing);
  }

  // A call that is not passed queues every window that still has to be extracted;
  // when all are extracted, it fails and queues those that lost their artifacts.
  lemma NotPassedQueues(cfg: Settings, env: Surroundings, db: Db, last: int, i: nat)
    requires MayClose(env, db, last)
    requires i < |Close(cfg, db, true, env.pipeline, Some(last), SessionReadiness(db, last).skippable).windows|
    ensures var closed := Close(cfg, db, true, env.pipeline, Some(last), SessionReadiness(db, last).skippable);
            var w, result := TakenBack(closed.windows[i], i in env.staleWindows), Finalize(cfg, env, db);
            && i < |result.0.windows|
            && match result.1
               case WaitsForWindows => result.0.windows[i] == w.(queued := w.queued || Extractable(w))
               case HasGaps =>
                 result.0.windows[i] ==
                 if w.status == WindowCompleted && !w.persistenceOk then w.(status := WindowFailed, queued := true) else w
               case Passed(_) => result.0.windows[i] == w
               case _ => false
  {
    var closed := Close(cfg, db, true, env.pipeline, Some(last), SessionReadiness(db, last).skippable);
    ReclaimedAre(closed.windows, env.staleWindows, i);
    var back := ReclaimedWindows(closed.windows, env.staleWindows);
    RepublishedAre(back, env.staleJobs, i);
    ReopenedAre(back, i);
    ClosesOff(cfg, env, db, last);
    WindowsAfter(cfg, env, db, last);
  }

  // Which of the three it is.
  lemma OutcomeIs(cfg: Settings, env: Surroundings, db: Db, last: int)
    requires Ordered(db.chunks) && MayClose(env, db, last)
    ensures var back, outcome := ClosedFinally(cfg, env, db, last), Finalize(cfg, env, db).1;
            var waits := exists n :: Waiting(back, Some(last), n);
            var blocks := exists i :: 0 <= i < |back.windows| && back.windows[i].status != WindowCompleted
                                      && !back.windows[i].extractionSkipped && !back.windows[i].doc.isFinalPartial;
            var gaps := exists i :: 0 <= i < |back.windows| && back.windows[i].status == WindowCompleted
                                    && !back.windows[i].persistenceOk;
            && (outcome == WaitsForWindows <==> waits || blocks)
            && (outcome == HasGaps <==> !waits && !blocks && gaps)
            && (outcome.Passed? <==> !waits && !blocks && !gaps)
  {
    ClosedIsOrdered(cfg, env, db, last);
    var back := ClosedFinally(cfg, env, db, last);
    NoneWaiting(back, Some(last));
    NoWindowCounted(back.windows, Blocks);
    NoWindowCounted(back.windows, IsGap);
  }

  lemma {:induction false} TakenBackChunks(chunks: seq<Chunk>, stale: set<int>, i: nat)
    requires i < |chunks|
    ensures var c := chunks[i];
            ReclaimedChunks(chunks, stale)[i] ==
            if c.stt == SttProcessing && !c.terminal && c.speech.sequence in stale then c.(stt := SttPending) else c
  {
    if i < |chunks| - 1 {
      TakenBackChunks(chunks[..|chunks| - 1], stale, i);
    }
  }

  // With something unresolved, only stale transcriptions are taken back.
  lemma UnresolvedTakesBack(cfg: Settings, env: Surroundings, db: Db, last: int, i: nat)
    requires db.conversation.expectedLast == Some(last) && i < |db.chunks|
    requires !IsSettledStatus(db.conversation.status) && !(db.conversation.status.Partial? && env.published)
    requires SessionReadiness(db, last).unresolved
    ensures var result, c := Finalize(cfg, env, db), db.chunks[i];
            && result.1 == WaitsForTranscripts && result.0.windows == db.windows && |result.0.chunks| == |db.chunks|
            && result.0.chunks[i] ==
               (if c.stt == SttProcessing && !c.terminal && c.speech.sequence in env.staleChunks then c.(stt := SttPending) else c)
            && result.0.conversation.status ==
               if MayMove(db.conversation.status, WaitingForTranscripts) then WaitingForTranscripts else db.conversation.status
  {
    TakenBackChunks(db.chunks, env.staleChunks, i);
    MovesSafely(db.(chunks := ReclaimedChunks(db.chunks, env.staleChunks)), WaitingForTranscripts);
  }

  // A conversation that was never stopped, is on its way, or has a published
  // partial result is left as it is.
  lemma SettledIsLeft(cfg: Settings, env: Surroundings, db: Db)
    requires db.conversation.expectedLast.None? || db.conversation.status in {ReadyForProcessing, InProcessing, Validating, Completed}
             || (db.conversation.status == Partial && env.published)
    ensures Finalize(cfg, env, db) == (db, if db.conversation.expectedLast.None? then NotStopped else AlreadySettled)
  {
  }

  // The status a call moves to, by its outcome.
  function StatusFor(outcome: Outcome): ConversationStatus {
    match outcome
    case WaitsForTranscripts => WaitingForTranscripts
    case Passed(_) => ReadyForProcessing
    case _ => Finalizing
  }

  predicate MovedFor(before: ConversationStatus, outcome: Outcome, after: ConversationStatus) {
    && outcome != NotStopped && outcome != AlreadySettled
    && after == if MayMove(before, StatusFor(outcome)) then StatusFor(outcome) else before
  }

  lemma MovesAfterClose(env: Surroundings, closed: Db, last: int)
    requires !IsSettledStatus(closed.conversation.status)
    ensures var result := AfterClose(env, closed, last);
            MovedFor(closed.conversation.status, result.1, result.0.conversation.status)
  {
    MovesSafely(closed.(windows := Republished(closed.windows, env.staleJobs)), Finalizing);
    MovesSafely(closed.(windows := GapsReopened(closed.windows)), Finalizing);
    MovesSafely(closed, ReadyForProcessing);
  }

  lemma MovesAfterTranscripts(db: Db, last: int)
    requires !IsSettledStatus(db.conversation.status)
    ensures var result := AfterTranscripts(db, last); MovedFor(db.conversation.status, result.1, result.0.conversation.status)
  {
    MovesSafely(db, Finalizing);
    MovesSafely(db, ReadyForProcessing);
  }

  lemma SentBackMoves(env: Surroundings, db: Db)
    requires !IsSettledStatus(db.conversation.status)
    ensures MovedFor(db.conversation.status, WaitsForTranscripts, SentBack(env, db).conversation.status)
  {
    MovesSafely(db.(chunks := ReclaimedChunks(db.chunks, env.staleChunks)), WaitingForTranscripts);
  }

  // Any other call tells what the conversation waits for, by its status, if the
  // table lets it move there; otherwise the status stays.
  lemma StatusAfter(cfg: Settings, env: Surroundings, db: Db)
    requires Ordered(db.chunks) && db.conversation.expectedLast.Some?
    requires db.conversation.status !in {ReadyForProcessing, InProcessing, Validating, Completed}
    requires !(db.conversation.status == Partial && env.published)
    ensures var result := Finalize(cfg, env, db);
            MovedFor(db.conversation.status, result.1, result.0.conversation.status)
  {
    var last := db.conversation.expectedLast.value;
    if SessionReadiness(db, last).unresolved {
      SentBackMoves(env, db);
    } else if env.incremental {
      ClosedIsOrdered(cfg, env, db, last);
      MovesAfterClose(env, ClosedFinally(cfg, env, db, last), last);
    } else {
      MovesAfterTranscripts(db, last);
    }
  }
}

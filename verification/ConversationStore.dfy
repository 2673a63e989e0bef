// The stored documents of one conversation, updated in place, and the calls
// that work on them: the repository, the window closing and the final gate.

module ConversationStore {
  import opened Seqs
  import opened Text
  import opened Models
  import opened Windowing
  import opened Store
  import opened Incremental
  import opened Lookups
  import opened Repository
  import opened Finalization
  import opened FinalizeGate

  class Documents {
    var conversation: Conversation
    var chunks: seq<Chunk>
    var windows: seq<StoredWindow>

    ghost function Now(): Db
      reads this
    {
      Db(conversation, chunks, windows)
    }

    constructor (conversation: Conversation)
      ensures Now() == Db(conversation, [], [])
    {
      this.conversation := conversation;
      chunks, windows := [], [];
    }

    // ----- transcripts

    method RecordAudioChunk(n: nat, durationMs: nat)
      modifies this
      ensures Now() == RecordAudio(old(Now()), n, durationMs)
    {
      chunks := Insert(chunks, NewChunk(n, durationMs));
    }

    method CompleteTranscriptChunk(n: int, text: string) returns (stored: bool)
      modifies this
      ensures var write := StoreTranscript(old(Now()), n, text);
              stored == write.1 && Now() == if write.1 then CountTranscript(write.0) else write.0
    {
      var found := Lookup(chunks, n);
      stored := found.Some? && !found.value.stt.SttCompleted?;
      if stored {
        chunks := Put(chunks, TranscribedFrom(found.value, text));
        conversation := conversation.(completedCount := conversation.completedCount + 1);
      }
    }

    method MarkTranscriptChunkProcessing(n: int) returns (marked: bool)
      modifies this
      ensures (Now(), marked) == StartTranscription(old(Now()), n)
    {
      marked := IsOpen(chunks, n);
      if marked {
        chunks := Put(chunks, Lookup(chunks, n).value.(stt := SttProcessing));
      }
    }

    method FailTranscriptChunk(n: int, terminal: bool, permanent: bool) returns (failed: bool)
      modifies this
      ensures var read, write := ReadForFailure(old(Now()), n), StoreFailure(old(Now()), n, terminal, permanent);
              && failed == (read.Some? && write.1)
              && Now() == if !failed then old(Now()) else if read.value.SttFailed? then write.0 else CountFailure(write.0)
    {
      var existing := Lookup(chunks, n);
      if existing.None? || existing.value.stt.SttCompleted? || (existing.value.stt.SttFailed? && existing.value.terminal) {
        return false;
      }
      failed := IsOpen(chunks, n);
      if failed {
        chunks := Put(chunks, FailedFrom(existing.value, terminal, permanent));
        if !existing.value.stt.SttFailed? {
          conversation := conversation.(failedCount := conversation.failedCount + 1);
        }
      }
    }

    method MarkTranscriptsExcluded(numbers: set<int>, reason: ExclusionReason)
      modifies this
      ensures Now() == MarkExcluded(old(Now()), numbers, reason)
    {
      ghost var was := chunks;
      for i := 0 to |chunks|
        invariant |chunks| == |was| && conversation == old(conversation) && windows == old(windows)
        invariant chunks[..i] == Excluded(was[..i], numbers, reason) && chunks[i..] == was[i..]
      {
        TakeSnoc(was, i);
        var c := chunks[i];
        assert c == was[i..][0];
        chunks := chunks[i := ExcludeOne(c, numbers, reason)];
        TakeSnoc(chunks, i);
      }
      TakeAll(was);
      TakeAll(chunks);
    }

    method ClaimTranscripts(numbers: set<int>, id: nat)
      modifies this
      ensures Now() == old(Now()).(chunks := Claimed(old(chunks), numbers, id))
    {
      ghost var was := chunks;
      for i := 0 to |chunks|
        invariant |chunks| == |was| && conversation == old(conversation) && windows == old(windows)
        invariant chunks[..i] == Claimed(was[..i], numbers, id) && chunks[i..] == was[i..]
      {
        TakeSnoc(was, i);
        var c := chunks[i];
        assert c == was[i..][0];
        chunks := chunks[i := ClaimOne(c, numbers, id)];
        TakeSnoc(chunks, i);
      }
      TakeAll(was);
      TakeAll(chunks);
    }

    method ReclaimStaleSttChunks(stale: set<int>)
      modifies this
      ensures Now() == old(Now()).(chunks := ReclaimedChunks(old(chunks), stale))
    {
      ghost var was := chunks;
      for i := 0 to |chunks|
        invariant |chunks| == |was| && conversation == old(conversation) && windows == old(windows)
        invariant chunks[..i] == ReclaimedChunks(was[..i], stale) && chunks[i..] == was[i..]
      {
        TakeSnoc(was, i);
        var c := chunks[i];
        assert c == was[i..][0];
        chunks := chunks[i := ReclaimOne(c, stale)];
        TakeSnoc(chunks, i);
      }
      TakeAll(was);
      TakeAll(chunks);
    }

    // ----- windows

    method CreateConversationWindow(doc: Window, owned: set<int>, skipped: set<int>) returns (id: nat)
      modifies this
      ensures var upsert := UpsertWindow(old(windows), doc);
              && id == upsert.1 && windows == upsert.0 && conversation == old(conversation)
              && chunks == Excluded(Claimed(old(chunks), owned, id), skipped, EmptyTranscript)
    {
      FoundWindow(windows, doc.sequenceStart, doc.sequenceEnd);
      var existing := FindWindow(windows, doc.sequenceStart, doc.sequenceEnd);
      if existing.Some? {
        id := existing.value;
      } else {
        id := |windows|;
        windows := windows + [NewStoredWindow(doc)];
      }
      ClaimTranscripts(owned, id);
      MarkTranscriptsExcluded(skipped, EmptyTranscript);
    }

    method MarkWindowProcessing(i: nat) returns (granted: bool)
      requires i < |windows|
      modifies this`windows
      ensures granted == MayGrant(old(windows[i])) && windows == old(windows)[i := Granted(old(windows[i]))]
    {
      var w := windows[i];
      granted := w.status.WindowPending? || w.status.WindowFailed? || w.status.WindowRetrying?;
      if granted {
        windows := windows[i := w.(status := WindowProcessing, attemptCount := w.attemptCount + 1)];
      }
    }

    method CompleteWindow(i: nat, skipped: bool, persistenceOk: bool)
      requires i < |windows|
      modifies this`windows
      ensures windows == old(windows)[i := CompletedWindow(old(windows[i]), skipped, persistenceOk)]
    {
      windows := windows[i := windows[i].(status := WindowCompleted, extractionSkipped := skipped, persistenceOk := persistenceOk)];
    }

    method FailWindow(i: nat)
      requires i < |windows|
      modifies this`windows
      ensures windows == old(windows)[i := FailedWindow(old(windows[i]))]
    {
      windows := windows[i := windows[i].(status := WindowFailed)];
    }

    method MarkWindowQueued(i: nat)
      requires i < |windows|
      modifies this`windows
      ensures windows == old(windows)[i := QueuedWindow(old(windows[i]))]
    {
      windows := windows[i := windows[i].(queued := true)];
    }

    method ReclaimStaleProcessingWindows(stale: set<int>)
      modifies this`windows
      ensures windows == ReclaimedWindows(old(windows), stale)
    {
      ghost var was := windows;
      for i := 0 to |windows|
        invariant |windows| == |was|
        invariant windows[..i] == ReclaimedWindows(was[..i], stale) && windows[i..] == was[i..]
      {
        TakeSnoc(was, i);
        var w := windows[i];
        assert w == was[i..][0];
        if i in stale && w.status.WindowProcessing? {
          windows := windows[i := w.(status := WindowPending, queued := false)];
        }
        TakeSnoc(windows, i);
      }
      TakeAll(was);
      TakeAll(windows);
    }

    // ----- the conversation

    method Transition(target: ConversationStatus) returns (moved: bool)
      modifies this`conversation
      ensures moved == MayMove(old(conversation.status), target)
      ensures conversation == if moved then old(conversation).(status := target) else old(conversation)
    {
      moved := conversation.status == target || target in ValidTransitions(conversation.status);
      if moved {
        conversation := conversation.(status := target);
      }
    }

    method MarkConversationFailed()
      modifies this`conversation
      ensures conversation == FailConversation(old(conversation))
    {
      if !conversation.status.Completed? {
        conversation := conversation.(status := Failed);
      }
    }
  }

  // ----- closing the windows that are ready

  class IncrementalProcessor {
    const cfg: Settings
    const pipeline: bool
    const documents: Documents

    constructor (cfg: Settings, pipeline: bool, documents: Documents)
      ensures this.cfg == cfg && this.pipeline == pipeline && this.documents == documents
    {
      this.cfg, this.pipeline, this.documents := cfg, pipeline, documents;
    }

    // One built window is stored, and completed, queued or left.
    method StoreWindow(b: Built, deferred: bool)
      modifies documents
      ensures documents.Now() == CreateWindow(old(documents.Now()), b, deferred)
    {
      var id := documents.CreateConversationWindow(b.window, Numbers(b.owned), Numbers(b.skipped));
      ghost var stored := documents.windows;
      var saved := documents.windows[id];
      if saved.doc.isFinalPartial || b.window.closeReason.ForcedFinal? || deferred {
        documents.CompleteWindow(id, true, true);
      } else if MayGrant(saved) && !saved.queued {
        documents.MarkWindowQueued(id);
      }
      StoresWindow(old(documents.windows), b, deferred);
      assert documents.windows == Stored(old(documents.windows), b, deferred).0;
    }

    method StoreWindows(built: seq<Built>, deferred: bool)
      modifies documents
      ensures documents.Now() == CreateWindows(old(documents.Now()), built, deferred)
    {
      for i := 0 to |built|
        invariant documents.Now() == CreateWindows(old(documents.Now()), built[..i], deferred)
      {
        TakeSnoc(built, i);
        StoreWindow(built[i], deferred);
      }
      TakeAll(built);
    }

    method ReadPlan(through: Option<int>, skippableSequences: set<int>)
      returns (all: seq<Chunk>, start: nat, skippable: set<int>, unwindowed: seq<Speech>)
      ensures all == UpTo(documents.chunks, through)
      ensures Plan(start, skippable, PresentNumbers(all), unwindowed) == MakePlan(documents.Now(), through, skippableSequences)
    {
      all := UpTo(documents.chunks, through);
      skippable := skippableSequences + SkippableNumbers(all);
      start := FirstSequence(documents.conversation);
      if documents.windows != [] {
        start := LastWindow(documents.windows).doc.sequenceEnd + 1;
      }
      unwindowed := Unwindowed(all, start);
    }

    method CloseReadyWindows(force: bool, through: Option<int>, skippableSequences: set<int>)
      modifies documents
      ensures documents.Now() == Incremental.Close(cfg, old(documents.Now()), force, pipeline, through, skippableSequences)
    {
      ghost var plan := MakePlan(documents.Now(), through, skippableSequences);
      var all, start, skippable, unwindowed := ReadPlan(through, skippableSequences);
      var useful := UsefulNumbers(all);
      if force && useful != {} && useful <= CoveredNumbers(documents.windows) {
        return;
      }
      if unwindowed == [] && skippable == {} {
        return;
      }
      CloseWaiting(force, all, start, skippable, unwindowed, through, plan);
    }

    method CloseWaiting(force: bool, all: seq<Chunk>, start: nat, skippable: set<int>, unwindowed: seq<Speech>,
                        through: Option<int>, ghost plan: Plan)
      requires all == UpTo(documents.chunks, through)
      requires plan == Plan(start, skippable, PresentNumbers(all), unwindowed)
      modifies documents
      ensures documents.Now() == Proceed(cfg, old(documents.Now()), plan, force, pipeline, through)
    {
      var rest := MarkLeading(all, start, skippable, unwindowed, through, plan);
      CloseRest(force, start, skippable, PresentNumbers(all), rest, plan);
    }

    // Failed chunks and the empty ones in front are marked; the others remain.
    method MarkLeading(all: seq<Chunk>, start: nat, skippable: set<int>, unwindowed: seq<Speech>, through: Option<int>,
                       ghost plan: Plan)
      returns (rest: seq<Speech>)
      requires all == UpTo(documents.chunks, through)
      requires plan.start == start && plan.skippable == skippable && plan.waiting == unwindowed
      modifies documents
      ensures documents.Now() == Prepared(old(documents.Now()), plan, through)
      ensures rest == Rest(plan)
    {
      documents.MarkTranscriptsExcluded(FailedNumbers(all, start, skippable), SttFailure);
      var leading := Numbers(LeadingSkippable(unwindowed, skippable));
      documents.MarkTranscriptsExcluded(leading, EmptyTranscript);
      rest := Without(unwindowed, leading);
    }

    // The hole in front, the windows, and what a final call leaves over.
    method CloseRest(force: bool, start: nat, skippable: set<int>, present: set<int>, rest: seq<Speech>, ghost plan: Plan)
      requires plan.start == start && plan.skippable == skippable && plan.present == present && rest == Rest(plan)
      modifies documents
      ensures documents.Now() ==
              if Hole(plan.start, rest) <= SkippableNow(plan, rest, force)
              then Windowed(cfg, HoleMarked(old(documents.Now()), plan, rest), plan, force, pipeline)
              else old(documents.Now())
    {
      ghost var before := documents.Now();
      var hole := Hole(start, rest);
      var allowed := skippable;
      if force {
        allowed := allowed + (hole - present);
      }
      if !(hole <= allowed) {
        return;
      }
      documents.MarkTranscriptsExcluded(hole - present, SequenceMissing);
      documents.MarkTranscriptsExcluded(hole * present, SttFailure);
      assert documents.Now() == HoleMarked(before, plan, rest);
      var overlapPrefix := OverlapPrefixOf();
      var built := BuildReadyWindows(cfg, rest, |documents.windows|, force, overlapPrefix, allowed);
      var deferred := force && (pipeline || documents.conversation.isExtension);
      StoreWindows(built, deferred);
      if force {
        documents.MarkTranscriptsExcluded(EmptyNumbers(rest), EmptyTranscript);
      }
    }

    method OverlapPrefixOf() returns (prefix: seq<Speech>)
      ensures prefix == OverlapPrefix(documents.Now())
    {
      prefix := [];
      if documents.windows != [] {
        var last := LastWindow(documents.windows).doc;
        if last.overlapStart.Some? {
          prefix := CompletedBetween(documents.chunks, last.overlapStart.value, last.sequenceEnd);
        }
      }
    }
  }

  // ----- the final gate

  class FinalizationCoordinator {
    const documents: Documents
    const processor: IncrementalProcessor

    constructor (cfg: Settings, pipeline: bool, documents: Documents)
      ensures this.documents == documents && processor.documents == documents
      ensures processor.cfg == cfg && processor.pipeline == pipeline
    {
      this.documents := documents;
      processor := new IncrementalProcessor(cfg, pipeline, documents);
    }

    method MoveSafely(target: ConversationStatus) returns (moved: bool)
      modifies documents
      ensures (documents.Now(), moved) == SafeTransition(old(documents.Now()), target)
    {
      if IsSettledStatus(documents.conversation.status) || documents.conversation.status == target {
        return false;
      }
      moved := documents.Transition(target);
    }

    method PublishIncomplete(stale: set<int>)
      modifies documents`windows
      ensures documents.windows == Republished(old(documents.windows), stale)
    {
      ghost var was := documents.windows;
      for i := 0 to |documents.windows|
        invariant |documents.windows| == |was|
        invariant documents.windows[..i] == Republished(was[..i], stale) && documents.windows[i..] == was[i..]
      {
        TakeSnoc(was, i);
        var w := documents.windows[i];
        assert w == was[i..][0];
        if Blocks(w) && ShouldPublish(w, i in stale) {
          documents.MarkWindowQueued(i);
        }
        TakeSnoc(documents.windows, i);
      }
      TakeAll(was);
      TakeAll(documents.windows);
    }

    method ReopenGap(i: nat)
      requires i < |documents.windows|
      modifies documents`windows
      ensures documents.windows == old(documents.windows)[i := ReopenOne(old(documents.windows[i]))]
    {
      if IsGap(documents.windows[i]) {
        documents.FailWindow(i);
        documents.MarkWindowQueued(i);
      }
    }

    method ReopenGaps()
      modifies documents`windows
      ensures documents.windows == GapsReopened(old(documents.windows))
    {
      ghost var was := documents.windows;
      for i := 0 to |documents.windows|
        invariant |documents.windows| == |was|
        invariant documents.windows[..i] == GapsReopened(was[..i]) && documents.windows[i..] == was[i..]
      {
        TakeSnoc(was, i);
        assert documents.windows[i] == was[i..][0];
        ReopenGap(i);
        TakeSnoc(documents.windows, i);
      }
      TakeAll(was);
      TakeAll(documents.windows);
    }

    method FinalizeWindows(env: Surroundings, last: int, skippable: set<int>) returns (outcome: Outcome)
      requires processor.documents == documents && processor.pipeline == env.pipeline
      requires skippable == SessionReadiness(documents.Now(), last).skippable
      modifies documents
      ensures (documents.Now(), outcome) == AfterWindows(processor.cfg, env, old(documents.Now()), last)
    {
      processor.CloseReadyWindows(true, Some(last), skippable);
      var unwindowed := CountWaiting(documents.chunks, Some(last));
      documents.ReclaimStaleProcessingWindows(env.staleWindows);
      ghost var closed := documents.Now();
      assert closed == ClosedFinally(processor.cfg, env, old(documents.Now()), last);
      var incomplete := CountWindows(documents.windows, Blocks);
      if unwindowed > 0 || incomplete > 0 {
        PublishIncomplete(env.staleJobs);
        var _ := MoveSafely(Finalizing);
        return WaitsForWindows;
      }
      if CountWindows(documents.windows, IsGap) > 0 {
        ReopenGaps();
        var _ := MoveSafely(Finalizing);
        return HasGaps;
      }
      var moved := MoveSafely(ReadyForProcessing);
      outcome := Passed(moved);
    }

    method FinalizeConversation(env: Surroundings) returns (outcome: Outcome)
      requires processor.documents == documents && processor.pipeline == env.pipeline
      modifies documents
      ensures (documents.Now(), outcome) == Finalize(processor.cfg, env, old(documents.Now()))
    {
      var conversation := documents.conversation;
      if conversation.expectedLast.None? {
        return NotStopped;
      }
      if IsSettledStatus(conversation.status) || (conversation.status.Partial? && env.published) {
        return AlreadySettled;
      }
      var last := conversation.expectedLast.value;
      var readiness := SessionReadiness(Db(conversation, documents.chunks, documents.windows), last);
      if readiness.unresolved {
        documents.ReclaimStaleSttChunks(env.staleChunks);
        var _ := MoveSafely(WaitingForTranscripts);
        return WaitsForTranscripts;
      }
      if env.incremental {
        outcome := FinalizeWindows(env, last, readiness.skippable);
        return;
      }
      if readiness.accounting.validUnwindowed > 0 {
        var _ := MoveSafely(Finalizing);
        return HasUnwindowed;
      }
      var moved := MoveSafely(ReadyForProcessing);
      outcome := Passed(moved);
    }
  }

  // Storing a window is the upsert followed by its dispatch.
  lemma StoresWindow(windows: seq<StoredWindow>, b: Built, deferred: bool)
    ensures var upsert := UpsertWindow(windows, b.window);
            var saved := upsert.0[upsert.1];
            && upsert.1 == Stored(windows, b, deferred).1
            && Stored(windows, b, deferred).0 ==
               upsert.0[upsert.1 := Dispatched(saved, saved.doc.isFinalPartial || b.window.closeReason.ForcedFinal? || deferred)]
  {
    FoundWindow(windows, b.window.sequenceStart, b.window.sequenceEnd);
  }
}

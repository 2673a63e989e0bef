// What a transcript that arrives late can do: the final close leaves it or its
// followers out, the conversation becomes READY without it, and closing online
// stores other windows than one batch.

module LateTranscripts {
  import opened Text
  import opened Models
  import opened Windowing
  import opened Store
  import opened Incremental
  import opened Lookups
  import opened ForcedClose
  import opened WindowOrder
  import opened Repository
  import opened Finalization
  import opened FinalizeGate
  import opened FinalEffects
  import opened SpokenLine
  import opened WindowCore
  import opened OnlineBatch
  import opened OnlineRun

  function Stopped(last: int): Conversation {
    Conversation(StopRequested, false, Some(last), false, 0, 0)
  }

  // Chunk 0 fails for good and is marked by a close ...
  function FailedFirst(last: int): Db {
    StoreFailure(RecordAudio(Db(Stopped(last), [], []), 0, 0), 0, true, true).0
  }

  // ... and is transcribed after all ...
  function Late(cfg: Settings, pipeline: bool, last: int): Db {
    StoreTranscript(Called(cfg, pipeline, FailedFirst(last)), 0, "a").0
  }

  // ... before chunk 1 is.
  function Retried(cfg: Settings, pipeline: bool): Db {
    StoreTranscript(RecordAudio(Late(cfg, pipeline, 1), 1, 0), 1, "b").0
  }

  lemma FailedFirstIs(last: int)
    ensures FailedFirst(last) == Db(Stopped(last), [FailedFrom(NewChunk(0, 0), true, true)], [])
  {
    var pending := NewChunk(0, 0);
    assert Insert([], pending) == [pending];
    assert Put([pending], FailedFrom(pending, true, true)) == [FailedFrom(pending, true, true)];
  }

  // What the close finds.
  lemma FailedPlan(last: int)
    ensures var plan := PlanOf(FailedFirst(last));
            && plan.waiting == [] && plan.skippable == {0} && Rest(plan) == [] && Leading(plan) == {}
            && FailedNumbers(UpTo(FailedFirst(last).chunks, None), plan.start, plan.skippable) == {0}
  {
    var failed := FailedFrom(NewChunk(0, 0), true, true);
    FailedFirstIs(last);
    assert UpTo([failed], None) == [failed];
    assert FailedNumbers([failed], 0, {0}) == {0};
  }

  // The close marks the failed chunk and builds nothing.
  lemma ClosedFirst(cfg: Settings, pipeline: bool, last: int)
    ensures Called(cfg, pipeline, FailedFirst(last)) ==
            Db(Stopped(last), [FailedFrom(NewChunk(0, 0), true, true).(processing := Processed)], [])
  {
    var db, failed := FailedFirst(last), FailedFrom(NewChunk(0, 0), true, true);
    var plan, marked := PlanOf(db), failed.(processing := Processed);
    FailedPlan(last);
    FailedFirstIs(last);
    assert Excluded([failed], {0}, SttFailure) == [marked];
    MarkedTwice(marked, {}, EmptyTranscript);
    assert Prepared(db, plan, None) == Db(Stopped(last), [marked], []);
    MarkedTwice(marked, {}, SequenceMissing);
    MarkedTwice(marked, {}, SttFailure);
    assert Ready(db) == Prepared(db, plan, None);
    NothingReachable(cfg, 0, false, []);
    assert BuiltFrom(cfg, Ready(db), plan, false) == [];
    BusyCall(cfg, pipeline, db);
  }

  // A marked chunk is not marked again.
  lemma MarkedTwice(marked: Chunk, numbers: set<int>, reason: ExclusionReason)
    requires !marked.processing.Unprocessed?
    ensures Excluded([marked], numbers, reason) == [marked]
  {
  }

  function LateFirst(): Chunk {
    TranscribedFrom(FailedFrom(NewChunk(0, 0), true, true).(processing := Processed), "a")
  }

  const Said := [Speech(0, "a", 0), Speech(1, "b", 0)]

  lemma SaidIs()
    ensures LateFirst().speech == Said[0] && TranscribedFrom(NewChunk(1, 0), "b").speech == Said[1]
  {
    CollapseFixed("a");
    CollapseFixed("b");
  }

  lemma LateIs(cfg: Settings, pipeline: bool, last: int)
    ensures Late(cfg, pipeline, last) == Db(Stopped(last), [LateFirst()], [])
  {
    ClosedFirst(cfg, pipeline, last);
    assert Put([FailedFrom(NewChunk(0, 0), true, true).(processing := Processed)], LateFirst()) == [LateFirst()];
  }

  lemma RetriedIs(cfg: Settings, pipeline: bool)
    ensures Retried(cfg, pipeline) == Db(Stopped(1), [LateFirst(), TranscribedFrom(NewChunk(1, 0), "b")], [])
  {
    var first, second := LateFirst(), NewChunk(1, 0);
    LateIs(cfg, pipeline, 1);
    assert Insert([first], second) == [first, second];
    assert [first, second][..1] == [first];
    assert Put([first, second], TranscribedFrom(second, "b")) == [first, TranscribedFrom(second, "b")];
  }

  lemma TwoChunks(db: Db, first: Chunk, second: Chunk)
    requires db == Db(Stopped(1), [first, second], [])
    requires first.speech.sequence == 0 && second.speech.sequence == 1
    requires IsCompletedUseful(first) && first.exclusion.None? && first.processing.Processed? && Waits(second, Some(1))
    ensures Ordered(db.chunks) && Stranded(db, 0) && Waiting(db, Some(1), 1) && !Drainable(db, 1)
  {
    assert db.chunks[..1] == [first];
    assert Lookup([first], 0) == Some(first) && Lookup(db.chunks, 0) == Some(first);
    assert Lookup(db.chunks, 1) == Some(second);
    assert Stranded(db, 0) && ExpectedStart(db) == 0;
  }

  // Nothing is unresolved, yet the final close leaves chunk 1 out: chunk 0 is
  // marked as processed, so no window takes it, and it may not be skipped.
  lemma RetriedChunkStrands(cfg: Settings, pipeline: bool)
    ensures var db := Retried(cfg, pipeline);
            var ready := SessionReadiness(db, 1);
            && !ready.unresolved && Waiting(db, Some(1), 1)
            && Waiting(Close(cfg, db, true, pipeline, Some(1), ready.skippable), Some(1), 1)
  {
    var db := Retried(cfg, pipeline);
    var first, second := LateFirst(), TranscribedFrom(NewChunk(1, 0), "b");
    RetriedIs(cfg, pipeline);
    SaidIs();
    TwoChunks(db, first, second);
    AllThere(db, first, second);
    ForcedCloseTakes(cfg, db, pipeline, Some(1), SessionReadiness(db, 1).skippable, 1);
    DrainableReaches(db, 1, 1);
  }

  lemma AllThere(db: Db, first: Chunk, second: Chunk)
    requires db == Db(Stopped(1), [first, second], []) && first.stt.SttCompleted? && second.stt.SttCompleted?
    requires first.speech.sequence == 0 && second.speech.sequence == 1
    ensures !SessionReadiness(db, 1).unresolved
  {
    assert db.chunks[..1] == [first];
    assert PresentNumbers([first]) == {0} && PresentNumbers(db.chunks) == {0, 1};
    assert Missing({0, 1}, 0, 1) == [] && Missing({0, 1}, 0, 2) == [];
    assert Count([first], IsPendingOrProcessing) == 0 && Count([first], IsRetryableFailed) == 0;
  }

  // Any chunk that arrives behind the last window keeps waiting for good.
  lemma BehindTheWindows(cfg: Settings, db: Db, pipeline: bool, last: int, n: int)
    requires Ordered(db.chunks) && InOrder(Docs(db.windows)) && !SessionReadiness(db, last).unresolved
    requires Waiting(db, Some(last), n) && n < ExpectedStart(db)
    ensures Waiting(Close(cfg, db, true, pipeline, Some(last), SessionReadiness(db, last).skippable), Some(last), n)
  {
    ForcedCloseTakes(cfg, db, pipeline, Some(last), SessionReadiness(db, last).skippable, n);
    DrainableReaches(db, last, n);
  }

  // ----- without chunk 1

  lemma OneChunk(db: Db, first: Chunk)
    requires db == Db(Stopped(0), [first], []) && first.speech.sequence == 0
    requires IsCompletedUseful(first) && first.exclusion.None? && first.processing.Processed? && first.windowId.None?
    ensures Ordered(db.chunks) && Unplaced(db, 0) && Stranded(db, 0)
    ensures forall n :: !Waiting(db, Some(0), n)
  {
    assert forall n :: Lookup(db.chunks, n) == if n == 0 then Some(first) else None;
  }

  lemma NothingToClose(cfg: Settings, db: Db, force: bool, pipeline: bool, through: Option<int>, extra: set<int>)
    requires var plan := MakePlan(db, through, extra); plan.waiting == [] && plan.skippable == {}
    ensures Close(cfg, db, force, pipeline, through, extra) == db
  {
  }

  lemma NoneSkippable(db: Db, last: int)
    requires SkippableNumbers(db.chunks) == {} && !db.conversation.missingIsTerminal
    ensures SessionReadiness(db, last).skippable == {}
  {
  }

  // There is nothing to wait for and nothing to close.
  lemma OneChunkReady(cfg: Settings, db: Db, pipeline: bool, first: Chunk)
    requires db == Db(Stopped(0), [first], []) && first.speech.sequence == 0
    requires IsCompletedUseful(first) && first.exclusion.None? && first.processing.Processed?
    ensures var ready := SessionReadiness(db, 0); !ready.unresolved && Close(cfg, db, true, pipeline, Some(0), ready.skippable) == db
  {
    assert [first][..0] == [];
    assert PresentNumbers([first]) == {0};
    assert Missing({0}, 0, 0) == [];
    assert Missing({0}, 0, 1) == [];
    NoChunkCounted([first], IsPendingOrProcessing);
    NoChunkCounted([first], IsRetryableFailed);
    assert SkippableNumbers([first]) == {};
    NoneSkippable(db, 0);
    assert UpTo([first], Some(0)) == [first];
    assert Unwindowed([first], 0) == [];
    NothingToClose(cfg, db, true, pipeline, Some(0), {});
  }

  lemma OneChunkBecomesReady(cfg: Settings, env: Surroundings, db: Db, first: Chunk)
    requires db == Db(Stopped(0), [first], []) && first.speech.sequence == 0 && env.incremental
    requires IsCompletedUseful(first) && first.exclusion.None? && first.processing.Processed? && first.windowId.None?
    ensures Finalize(cfg, env, db).0.conversation.status.ReadyForProcessing?
  {
    OneChunk(db, first);
    OneChunkReady(cfg, db, env.pipeline, first);
    AllDoneMeans(db, 0);
    ReadyExactly(cfg, env, db, 0);
  }

  // Nothing waits, so the conversation becomes READY, and chunk 0 has no place in it.
  lemma LateChunkIsUnplaced(cfg: Settings, env: Surroundings, pipeline: bool)
    requires env.incremental
    ensures var db := Late(cfg, pipeline, 0);
            var result := Finalize(cfg, env, db).0;
            && Unplaced(db, 0) && (forall n :: !Waiting(db, Some(0), n))
            && result.conversation.status.ReadyForProcessing? && Unplaced(result, 0)
  {
    var db := Late(cfg, pipeline, 0);
    LateIs(cfg, pipeline, 0);
    SaidIs();
    OneChunk(db, LateFirst());
    OneChunkBecomesReady(cfg, env, db, LateFirst());
    ReadyLeavesStranded(cfg, env, db, 0, 0);
  }

  // ----- online against batch

  lemma FailedFirstIsUntouched(last: int)
    ensures Untouched(FailedFirst(last))
  {
    var failed := FailedFrom(NewChunk(0, 0), true, true);
    FailedFirstIs(last);
    assert IsFresh(failed) && forall n :: Lookup([failed], n) == if n == 0 then Some(failed) else None;
  }

  lemma SecondArrives(marked: Chunk, first: Chunk, second: Chunk, n: int)
    requires marked.speech.sequence == 0 && first.speech.sequence == 0 && second.speech.sequence == 1
    requires IsSettled(marked) && first != marked && IsFresh(second)
    ensures ArrivesAt(Lookup([marked], n), Lookup([first, second], n)) <==> n != 0
  {
    assert [first, second][..1] == [first];
  }

  // In the run of the two chunks, only the late transcription of chunk 0 is not
  // an arrival.
  lemma OnlyLateBreaks(cfg: Settings, pipeline: bool)
    ensures var before, after := Called(cfg, pipeline, FailedFirst(1)), Retried(cfg, pipeline);
            && Untouched(FailedFirst(1)) && after.windows == before.windows && after.conversation == before.conversation
            && forall n :: ArrivesAt(Lookup(before.chunks, n), Lookup(after.chunks, n)) <==> n != 0
  {
    var marked := FailedFrom(NewChunk(0, 0), true, true).(processing := Processed);
    FailedFirstIsUntouched(1);
    ClosedFirst(cfg, pipeline, 1);
    RetriedIs(cfg, pipeline);
    forall n: int
      ensures ArrivesAt(Lookup([marked], n), Lookup(Retried(cfg, pipeline).chunks, n)) <==> n != 0
    {
      SecondArrives(marked, LateFirst(), TranscribedFrom(NewChunk(1, 0), "b"), n);
    }
  }

  lemma LateLine(first: Chunk, second: Chunk)
    requires [first.speech, second.speech] == Said && first.stt.SttCompleted? && second.stt.SttCompleted?
    ensures Line([first, second], 0) == Said
  {
    var chunks := [first, second];
    assert chunks[..1] == [first];
    assert CompletedBetween([first], 0, 1) == [first.speech];
    assert CompletedBetween(chunks, 0, 1) == Said;
    assert Failures([first]) == {} && Failures(chunks) == {};
    assert Said[..1] == [Said[0]];
    var table := BySequence(Said);
    assert BySequence([Said[0]]) == map[0 := Said[0]];
    assert table == map[0 := Said[0], 1 := Said[1]];
    assert Walk(table, {}, 2, 1) == [];
    assert Walk(table, {}, 1, 1) == [Said[1]];
    assert Walk(table, {}, 0, 1) == Said;
    assert Useful([Said[0]]) == [Said[0]];
    assert Useful(Said) == Said;
  }

  lemma RetriedLine(cfg: Settings, pipeline: bool)
    ensures var db := Retried(cfg, pipeline); Ordered(db.chunks) && LineOf(db) == Said
  {
    RetriedIs(cfg, pipeline);
    SaidIs();
    LateLine(LateFirst(), TranscribedFrom(NewChunk(1, 0), "b"));
  }

  // A stranded chunk right after the last window keeps a call from building ...
  lemma StrandedFirstBlocks(db: Db, n: int)
    requires Ordered(db.chunks) && Stranded(db, ExpectedStart(db)) && Waiting(db, None, n) && ExpectedStart(db) < n
    ensures !Unblocked(db)
  {
    var start, rest := ExpectedStart(db), Rest(PlanOf(db));
    LookupNumber(db.chunks, start);
    PlanFacts(db, None, {}, start);
    LeadingFacts(db, None, {}, start);
    WaitingIsListed(db, None, {}, n);
    FirstIsLeast(rest, n);
    FindAt(rest, 0);
    assert start < rest[0].sequence && start !in PlanOf(db).skippable;
    assert start in Hole(start, rest);
  }

  lemma TwoUnplaced(db: Db, first: Chunk, second: Chunk, n: int)
    requires db == Db(Stopped(1), [first, second], [])
    requires first.speech.sequence == 0 && second.speech.sequence == 1 && first.windowId.None? && second.windowId.None?
    requires IsCompletedUseful(first) && first.exclusion.None?
    ensures Unplaced(db, 0) && (Lookup(db.chunks, n).Some? ==> Lookup(db.chunks, n).value.windowId.None?)
  {
    assert db.chunks[..1] == [first] && [first][..0] == [];
    assert Lookup([first], n) == if n == 0 then Some(first) else None;
    assert Lookup(db.chunks, 0) == Some(first);
  }

  lemma RetriedIsStranded(cfg: Settings, pipeline: bool)
    ensures var db := Retried(cfg, pipeline);
            Ordered(db.chunks) && Stranded(db, 0) && Waiting(db, None, 1) && ExpectedStart(db) == 0
  {
    RetriedIs(cfg, pipeline);
    SaidIs();
    TwoChunks(Retried(cfg, pipeline), LateFirst(), TranscribedFrom(NewChunk(1, 0), "b"));
  }

  lemma RetriedIsUnplaced(cfg: Settings, pipeline: bool, n: int)
    ensures var db := Retried(cfg, pipeline);
            Unplaced(db, 0) && (Lookup(db.chunks, n).Some? ==> Lookup(db.chunks, n).value.windowId.None?)
  {
    RetriedIs(cfg, pipeline);
    SaidIs();
    TwoUnplaced(Retried(cfg, pipeline), LateFirst(), TranscribedFrom(NewChunk(1, 0), "b"), n);
  }

  // ... so closing online builds nothing.
  lemma OnlineStoresNothing(cfg: Settings, pipeline: bool)
    ensures var db := Retried(cfg, pipeline); !Unblocked(db) && Called(cfg, pipeline, db).windows == []
  {
    RetriedIs(cfg, pipeline);
    RetriedIsStranded(cfg, pipeline);
    StrandedFirstBlocks(Retried(cfg, pipeline), 1);
    IdleCall(cfg, pipeline, Retried(cfg, pipeline));
  }

  lemma NothingRepeated(cfg: Settings, mine: seq<Speech>)
    ensures Tokens(cfg, Core([], [], [], mine)) == Costs(cfg, mine)
  {
  }

  lemma CoreOfTwo(cfg: Settings, a: Speech, b: Speech)
    requires a.durationMs == 0 && b.durationMs == 0
    ensures CoreAfter(cfg, [a, b]).owned != [] <==> Cost(cfg, a) + Cost(cfg, b) >= cfg.target
  {
    var start, one := Begun([]), Core([], [], [], [a]);
    assert [a, b][..1] == [a] && [a][..0] == [] && [] + [a] == [a];
    assert CoreRun(cfg, start, [a]) == one;
    assert CoreRun(cfg, start, [a, b]) == CoreStep(cfg, one, b);
    NothingRepeated(cfg, [a]);
    NothingRepeated(cfg, [a, b]);
    assert Costs(cfg, [a]) == Cost(cfg, a);
    assert Costs(cfg, [a, b]) == Cost(cfg, a) + Cost(cfg, b);
    assert TotalDuration([a]) == 0;
  }

  lemma BatchIsOnline(cfg: Settings, pipeline: bool, db: Db)
    requires Ordered(db.chunks) && Fair(cfg, LineOf(db))
    ensures Online(cfg, Called(cfg, pipeline, Afresh(db)), LineOf(db)) && LineOf(Called(cfg, pipeline, Afresh(db))) == LineOf(db)
  {
    AfreshIsUntouched(db);
    UntouchedOnline(cfg, Afresh(db));
    CallOnline(cfg, pipeline, Afresh(db), []);
  }

  // How many windows one call on everything stores.
  lemma BatchWindows(cfg: Settings, pipeline: bool, db: Db)
    requires Ordered(db.chunks) && Fair(cfg, LineOf(db))
    ensures |Called(cfg, pipeline, Afresh(db)).windows| == |CoreAfter(cfg, LineOf(db)).owned|
  {
    BatchIsOnline(cfg, pipeline, db);
  }

  // One-letter texts echo nothing.
  lemma SaidIsFair(cfg: Settings)
    requires cfg.sparseWallMs <= 0 && CostsSomething(cfg, Said)
    ensures Fair(cfg, Said)
  {
    NoEchoIsStable(cfg, Said[1], Said[0]);
  }

  // ----- for every late transcription

  // A chunk that failed for good and that a call has read is stranded when it is
  // transcribed after all.
  lemma LateTranscriptStrands(cfg: Settings, pipeline: bool, db: Db, c: Chunk, text: string)
    requires Ordered(db.chunks) && Lookup(db.chunks, c.speech.sequence) == Some(c) && ExpectedStart(db) <= c.speech.sequence
    requires IsTerminalFailed(c) && c.processing.Unprocessed? && c.windowId.None? && Strip(text) != ""
    ensures var after := StoreTranscript(Called(cfg, pipeline, db), c.speech.sequence, text).0;
            Unplaced(after, c.speech.sequence) && Stranded(after, c.speech.sequence)
  {
    var called, n := Called(cfg, pipeline, db), c.speech.sequence;
    FailuresAreMarked(cfg, db, false, pipeline, None, {}, c);
    PutLookup(called.chunks, TranscribedFrom(MarkedAs(c, SttFailure), text), n);
  }

  // Online closing leaves such a chunk out for ever ...
  lemma StrandedStays(cfg: Settings, pipeline: bool, db: Db, n: int)
    requires Unplaced(db, n) && Stranded(db, n)
    ensures Lookup(Called(cfg, pipeline, db).chunks, n) == Lookup(db.chunks, n)
    ensures Unplaced(Called(cfg, pipeline, db), n) && Stranded(Called(cfg, pipeline, db), n)
  {
    CloseOnlyMarks(cfg, db, false, pipeline, None, {}, n);
  }

  // ... so it parts from any batch that puts the chunk into a window.
  lemma StrandedIsNotBatch(cfg: Settings, pipeline: bool, db: Db, n: int)
    requires Unplaced(db, n) && Stranded(db, n)
    requires var taken := Lookup(Called(cfg, pipeline, Afresh(db)).chunks, n); taken.Some? && taken.value.windowId.Some?
    ensures !SameWindows(Called(cfg, pipeline, db), Called(cfg, pipeline, Afresh(db)))
  {
    StrandedStays(cfg, pipeline, db, n);
    assert !SameOwner(Lookup(Called(cfg, pipeline, db).chunks, n), Lookup(Called(cfg, pipeline, Afresh(db)).chunks, n));
  }

  // ----- for the two chunks

  // A batch that stores a window puts the first chunk of the line into one.
  lemma BatchTakesFirst(cfg: Settings, pipeline: bool, db: Db)
    requires Ordered(db.chunks) && Fair(cfg, LineOf(db)) && LineOf(db) != []
    requires Called(cfg, pipeline, Afresh(db)).windows != []
    ensures var taken := Lookup(Called(cfg, pipeline, Afresh(db)).chunks, LineOf(db)[0].sequence);
            taken.Some? && taken.value.windowId.Some?
  {
    var called, line := Called(cfg, pipeline, Afresh(db)), LineOf(db);
    var k, n := CoreAfter(cfg, line), line[0].sequence;
    BatchIsOnline(cfg, pipeline, db);
    var n0, from := OnlineOwns(cfg, called, line);
    LineAscends(called.chunks, FirstSequence(called.conversation));
    FindAt(line, 0);
    LineParts(called, k, |line|, n0, from, n);
    OwnedAreSettled(called, k, |line|, n0, from, n);
    assert TracksAt(called.chunks, k.owned, n);
  }

  // A call that a hole keeps from building puts no chunk into a window.
  lemma BlockedOwns(cfg: Settings, pipeline: bool, db: Db, n: int)
    requires !Unblocked(db)
    ensures match (Lookup(db.chunks, n), Lookup(Called(cfg, pipeline, db).chunks, n))
            case (Some(before), Some(after)) => after.windowId == before.windowId
            case (None, None) => true
            case _ => false
  {
    var plan := PlanOf(db);
    var failed := FailedNumbers(UpTo(db.chunks, None), plan.start, plan.skippable);
    IdleCall(cfg, pipeline, db);
    ExcludedLookup(db.chunks, failed, SttFailure, n);
    ExcludedLookup(Excluded(db.chunks, failed, SttFailure), Leading(plan), EmptyTranscript, n);
  }

  // A batch that stores no window takes no chunk either.
  lemma IdleBatchTakesNone(cfg: Settings, pipeline: bool, db: Db, n: int)
    requires Ordered(db.chunks) && Fair(cfg, LineOf(db)) && Called(cfg, pipeline, Afresh(db)).windows == []
    ensures match (Lookup(db.chunks, n), Lookup(Called(cfg, pipeline, Afresh(db)).chunks, n))
            case (Some(_), Some(after)) => after.windowId.None?
            case (None, None) => true
            case _ => false
  {
    BatchIsOnline(cfg, pipeline, db);
    assert TracksAt(Called(cfg, pipeline, Afresh(db)).chunks, CoreAfter(cfg, LineOf(db)).owned, n);
    CloseOnlyMarks(cfg, Afresh(db), false, pipeline, None, {}, n);
    ResetLookup(db.chunks, n);
  }

  lemma RetriedOwners(cfg: Settings, pipeline: bool, n: int)
    requires Fair(cfg, Said) && Called(cfg, pipeline, Afresh(Retried(cfg, pipeline))).windows == []
    ensures var db := Retried(cfg, pipeline);
            SameOwner(Lookup(Called(cfg, pipeline, db).chunks, n), Lookup(Called(cfg, pipeline, Afresh(db)).chunks, n))
  {
    RetriedLine(cfg, pipeline);
    RetriedIsUnplaced(cfg, pipeline, n);
    OnlineStoresNothing(cfg, pipeline);
    BlockedOwns(cfg, pipeline, Retried(cfg, pipeline), n);
    IdleBatchTakesNone(cfg, pipeline, Retried(cfg, pipeline), n);
  }

  lemma RetriedParts(cfg: Settings, pipeline: bool)
    requires Fair(cfg, Said) && Called(cfg, pipeline, Afresh(Retried(cfg, pipeline))).windows != []
    ensures var db := Retried(cfg, pipeline); !SameWindows(Called(cfg, pipeline, db), Called(cfg, pipeline, Afresh(db)))
  {
    RetriedLine(cfg, pipeline);
    RetriedIsStranded(cfg, pipeline);
    RetriedIsUnplaced(cfg, pipeline, 0);
    BatchTakesFirst(cfg, pipeline, Retried(cfg, pipeline));
    StrandedIsNotBatch(cfg, pipeline, Retried(cfg, pipeline), 0);
  }

  lemma RetriedAgrees(cfg: Settings, pipeline: bool)
    requires Fair(cfg, Said) && Called(cfg, pipeline, Afresh(Retried(cfg, pipeline))).windows == []
    ensures var db := Retried(cfg, pipeline); SameWindows(Called(cfg, pipeline, db), Called(cfg, pipeline, Afresh(db)))
  {
    var db := Retried(cfg, pipeline);
    OnlineStoresNothing(cfg, pipeline);
    forall n: int
      ensures SameOwner(Lookup(Called(cfg, pipeline, db).chunks, n), Lookup(Called(cfg, pipeline, Afresh(db)).chunks, n))
    {
      RetriedOwners(cfg, pipeline, n);
    }
  }

  // The run of the two chunks is such a case as soon as their lines reach the
  // token target: the batch stores a window and online closing does not.
  lemma OnlineIsNotBatch(cfg: Settings, pipeline: bool)
    requires cfg.sparseWallMs <= 0 && CostsSomething(cfg, Said)
    ensures var db := Retried(cfg, pipeline);
            && Called(cfg, pipeline, db).windows == []
            && (Called(cfg, pipeline, Afresh(db)).windows != [] <==> Cost(cfg, Said[0]) + Cost(cfg, Said[1]) >= cfg.target)
            && (SameWindows(Called(cfg, pipeline, db), Called(cfg, pipeline, Afresh(db))) <==>
                Cost(cfg, Said[0]) + Cost(cfg, Said[1]) < cfg.target)
  {
    OnlineStoresNothing(cfg, pipeline);
    RetriedLine(cfg, pipeline);
    SaidIsFair(cfg);
    BatchWindows(cfg, pipeline, Retried(cfg, pipeline));
    CoreOfTwo(cfg, Said[0], Said[1]);
    if Called(cfg, pipeline, Afresh(Retried(cfg, pipeline))).windows != [] {
      RetriedParts(cfg, pipeline);
    } else {
      RetriedAgrees(cfg, pipeline);
    }
  }
}

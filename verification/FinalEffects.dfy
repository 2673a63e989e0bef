// What a final close leaves behind: the windows of the chunks it takes, the
// marks of the chunks it skips, and the state of the windows it stores.

module FinalEffects {
  import opened Seqs
  import opened Text
  import opened Models
  import opened Windowing
  import opened ChunkLists
  import opened WindowPartition
  import opened Store
  import opened Incremental
  import opened Lookups
  import opened ForcedClose
  import opened WindowOrder
  import opened OnlineBatch
  import SpokenLine
  import opened Repository
  import opened Finalization
  import opened FinalizeGate

  // ----- the windows that are stored

  function NewlyStoredAll(built: seq<Built>, deferred: bool): (r: seq<StoredWindow>)
    ensures |r| == |built|
  {
    if built == [] then [] else NewlyStoredAll(built[..|built| - 1], deferred) + [NewlyStored(built[|built| - 1], deferred)]
  }

  lemma {:induction false} CreatedWindowsAre(db: Db, built: seq<Built>, deferred: bool)
    requires InOrder(Docs(db.windows) + Windows(built))
    ensures CreateWindows(db, built, deferred).windows == db.windows + NewlyStoredAll(built, deferred)
  {
    if built == [] {
      EmptyRight(db.windows);
    } else {
      var init, b := built[..|built| - 1], built[|built| - 1];
      WithoutLast(db, built, deferred);
      CreatedWindowsAre(db, init, deferred);
      StoredAppends(CreateWindows(db, init, deferred).windows, b, deferred);
      Assoc(db.windows, NewlyStoredAll(init, deferred), [NewlyStored(b, deferred)]);
    }
  }

  predicate IsRetained(w: StoredWindow) {
    w.status.WindowCompleted? && w.extractionSkipped && w.persistenceOk
  }

  lemma {:induction false} DeferredAreRetained(built: seq<Built>, i: nat)
    requires i < |built|
    ensures IsRetained(NewlyStoredAll(built, true)[i])
  {
    if i < |built| - 1 {
      DeferredAreRetained(built[..|built| - 1], i);
    }
  }

  lemma RetainedBehind(windows: seq<StoredWindow>, built: seq<Built>, i: nat)
    requires |windows| <= i < |windows + NewlyStoredAll(built, true)|
    ensures IsRetained((windows + NewlyStoredAll(built, true))[i])
  {
    DeferredAreRetained(built, i - |windows|);
  }

  // With the meeting pipeline, or for an extension, a final close leaves no
  // window behind that waits for extraction.
  lemma DeferredCloseRetains(cfg: Settings, db: Db, pipeline: bool, through: Option<int>, extra: set<int>, i: nat)
    requires Ordered(db.chunks) && InOrder(Docs(db.windows)) && (pipeline || db.conversation.isExtension)
    requires |db.windows| <= i < |Close(cfg, db, true, pipeline, through, extra).windows|
    ensures IsRetained(Close(cfg, db, true, pipeline, through, extra).windows[i])
  {
    var plan := MakePlan(db, through, extra);
    var ready := HoleMarked(Prepared(db, plan, through), plan, Rest(plan));
    ReadyInOrder(db, through, extra);
    CloseCases(cfg, db, true, pipeline, through, extra);
    BuiltInOrder(cfg, ready, Rest(plan), true, SkippableNow(plan, Rest(plan), true));
    var built := BuiltFrom(cfg, ready, plan, true);
    CreatedWindowsAre(ready, built, true);
    if Close(cfg, db, true, pipeline, through, extra) == Windowed(cfg, ready, plan, true, pipeline) {
      RetainedBehind(db.windows, built, i);
    }
  }

  // The state in which a window is stored: queued for extraction, unless it is
  // final or kept for the final pass; then it is completed without extraction.
  predicate IsStoredFor(w: StoredWindow, deferred: bool) {
    && w.attemptCount == 0 && w.persistenceOk
    && if w.doc.isFinalPartial || w.doc.closeReason == ForcedFinal || deferred
       then w.status == WindowCompleted && w.extractionSkipped && !w.queued
       else w.status == WindowPending && !w.extractionSkipped && w.queued
  }

  lemma {:induction false} NewlyStoredAre(built: seq<Built>, deferred: bool, i: nat)
    requires i < |built|
    ensures IsStoredFor(NewlyStoredAll(built, deferred)[i], deferred)
  {
    if i < |built| - 1 {
      NewlyStoredAre(built[..|built| - 1], deferred, i);
    }
  }

  lemma StoredBehind(windows: seq<StoredWindow>, built: seq<Built>, deferred: bool, i: nat)
    requires |windows| <= i < |windows + NewlyStoredAll(built, deferred)|
    ensures IsStoredFor((windows + NewlyStoredAll(built, deferred))[i], deferred)
  {
    NewlyStoredAre(built, deferred, i - |windows|);
  }

  // Every close leaves each of its windows queued or completed in this way.
  lemma NewWindowsAreStored(cfg: Settings, db: Db, force: bool, pipeline: bool, through: Option<int>, extra: set<int>, i: nat)
    requires Ordered(db.chunks) && InOrder(Docs(db.windows))
    requires |db.windows| <= i < |Close(cfg, db, force, pipeline, through, extra).windows|
    ensures IsStoredFor(Close(cfg, db, force, pipeline, through, extra).windows[i],
                        force && (pipeline || db.conversation.isExtension))
  {
    var plan, deferred := MakePlan(db, through, extra), force && (pipeline || db.conversation.isExtension);
    var ready := HoleMarked(Prepared(db, plan, through), plan, Rest(plan));
    ReadyInOrder(db, through, extra);
    CloseCases(cfg, db, force, pipeline, through, extra);
    BuiltInOrder(cfg, ready, Rest(plan), force, SkippableNow(plan, Rest(plan), force));
    var built := BuiltFrom(cfg, ready, plan, force);
    CreatedWindowsAre(ready, built, deferred);
    if Close(cfg, db, force, pipeline, through, extra) == Windowed(cfg, ready, plan, force, pipeline) {
      StoredBehind(db.windows, built, deferred, i);
    }
  }

  // A window that is stored again keeps its document and its attempts. It is
  // completed when it is to be kept for the final pass; otherwise it is asked
  // for if it still waits and nobody has asked, and left alone if not.
  lemma StoredAgain(windows: seq<StoredWindow>, b: Built, deferred: bool, i: nat)
    requires FindWindow(windows, b.window.sequenceStart, b.window.sequenceEnd) == Some(i) && i < |windows|
    ensures |Stored(windows, b, deferred).0| == |windows|
    ensures forall j :: 0 <= j < |windows| && j != i ==> Stored(windows, b, deferred).0[j] == windows[j]
    ensures var was, now := windows[i], Stored(windows, b, deferred).0[i];
            && now.doc == was.doc && now.attemptCount == was.attemptCount
            && if was.doc.isFinalPartial || b.window.closeReason == ForcedFinal || deferred
               then now.status == WindowCompleted && now.extractionSkipped && now.persistenceOk && now.queued == was.queued
               else && now.status == was.status && now.extractionSkipped == was.extractionSkipped
                    && now.persistenceOk == was.persistenceOk
                    && (now.queued <==> was.queued || was.status in {WindowPending, WindowFailed, WindowRetrying})
  {
  }

  // ----- the chunks that are taken

  function ClaimedBy(c: Chunk, owner: Option<nat>, base: nat): Chunk {
    if owner.Some? then c.(processing := Processed, windowId := Some(base + owner.value)) else c
  }

  lemma ClaimStep(c: Chunk, before: Option<nat>, base: nat, owned: set<int>, size: nat)
    requires c.processing.Unprocessed?
    ensures ClaimOne(ClaimedBy(c, before, base), owned, base + size) ==
            ClaimedBy(c, if before.Some? then before else if c.speech.sequence in owned then Some(size) else None, base)
  {
  }

  lemma NextClaims(earlier: Db, b: Built, deferred: bool, c: Chunk, before: Option<nat>, base: nat, size: nat)
    requires InOrder(Docs(earlier.windows) + [b.window]) && |earlier.windows| == base + size
    requires c.processing.Unprocessed? && c.speech.sequence !in Numbers(b.skipped)
    requires Lookup(earlier.chunks, c.speech.sequence) == Some(ClaimedBy(c, before, base))
    ensures Lookup(CreateWindow(earlier, b, deferred).chunks, c.speech.sequence) ==
            Some(ClaimedBy(c, if before.Some? then before else if c.speech.sequence in Numbers(b.owned) then Some(size) else None, base))
  {
    OneClaims(earlier, b, deferred, c.speech.sequence);
    ClaimStep(c, before, base, Numbers(b.owned), size);
  }

  // Which new window claims a number.
  lemma {:induction false} CreatedClaims(db: Db, built: seq<Built>, deferred: bool, c: Chunk)
    requires InOrder(Docs(db.windows) + Windows(built))
    requires Lookup(db.chunks, c.speech.sequence) == Some(c) && c.processing.Unprocessed? && c.speech.sequence !in SkippedSet(built)
    ensures Lookup(CreateWindows(db, built, deferred).chunks, c.speech.sequence) ==
            Some(ClaimedBy(c, FirstOwner(WindowPartition.Owned(built), c.speech.sequence), |db.windows|))
  {
    if built != [] {
      var init, b, n := built[..|built| - 1], built[|built| - 1], c.speech.sequence;
      WithoutLast(db, built, deferred);
      CreatedClaims(db, init, deferred, c);
      CreatedCount(db, init, deferred);
      OwnedSize(init);
      OwnerSnoc(WindowPartition.Owned(init), b.owned, n);
      NextClaims(CreateWindows(db, init, deferred), b, deferred, c, FirstOwner(WindowPartition.Owned(init), n), |db.windows|, |init|);
    }
  }

  lemma OneClaims(db: Db, b: Built, deferred: bool, n: int)
    requires InOrder(Docs(db.windows) + [b.window]) && Lookup(db.chunks, n).Some? && n !in Numbers(b.skipped)
    ensures Lookup(CreateWindow(db, b, deferred).chunks, n) == Some(ClaimOne(Lookup(db.chunks, n).value, Numbers(b.owned), |db.windows|))
  {
    StoredAppends(db.windows, b, deferred);
    LookupNumber(db.chunks, n);
    ClaimedLookup(db.chunks, Numbers(b.owned), |db.windows|, n);
    ExcludedLookup(Claimed(db.chunks, Numbers(b.owned), |db.windows|), Numbers(b.skipped), EmptyTranscript, n);
  }

  lemma {:induction false} OwnerIsBuilt(built: seq<Built>, n: int)
    requires FirstOwner(WindowPartition.Owned(built), n).Some?
    ensures var j := FirstOwner(WindowPartition.Owned(built), n).value; j < |built| && n in Numbers(built[j].owned)
  {
    var init := built[..|built| - 1];
    OwnedSize(init);
    OwnerSnoc(WindowPartition.Owned(init), built[|built| - 1].owned, n);
    if FirstOwner(WindowPartition.Owned(init), n).Some? {
      OwnerIsBuilt(init, n);
    }
  }

  lemma {:induction false} OwnedHasOwner(built: seq<Built>, n: int)
    requires n in OwnedSet(built)
    ensures FirstOwner(WindowPartition.Owned(built), n).Some?
  {
    var init := built[..|built| - 1];
    OwnerSnoc(WindowPartition.Owned(init), built[|built| - 1].owned, n);
    if n in OwnedSet(init) {
      OwnedHasOwner(init, n);
    }
  }

  // A window spans the numbers it owns.
  lemma OwnedAreSpanned(cfg: Settings, b: Built, overlap: seq<Speech>, segment: seq<Speech>, index: nat, low: int, floor: int, n: int)
    requires WindowOk(cfg, b, overlap, segment, index) && n in Numbers(b.owned)
    requires Ascending(overlap) && From(overlap, low) && Below(overlap, floor) && low <= floor
    requires Ascending(segment) && From(segment, floor)
    ensures b.window.sequenceStart <= n <= b.window.sequenceEnd
  {
    var mine := Useful(segment);
    WindowMarks(cfg, b, overlap, segment, index);
    NumbersFind(mine, n);
    FindNumber(mine, n);
    LastOfUseful(segment, floor);
    JoinedEnds(overlap, mine, low, floor);
    var i :| 0 <= i < |mine| && mine[i] == Find(mine, n).value;
    assert (overlap + mine)[|overlap| + i] == mine[i];
  }

  lemma {:induction false} FlattenPrefix(segments: seq<seq<Speech>>, i: nat)
    requires i <= |segments|
    ensures Flatten(segments[..i]) <= Flatten(segments)
  {
    if i < |segments| {
      TakeTake(segments, i, |segments| - 1);
      FlattenPrefix(segments[..|segments| - 1], i);
      FlattenUnfolds(segments);
    } else {
      TakeAll(segments);
    }
  }

  lemma PartAscends(a: seq<Speech>, b: seq<Speech>, low: int, next: int)
    requires a <= b && Ascending(b) && From(b, low) && Below(b, next)
    ensures Ascending(a) && From(a, low) && Below(a, next)
  {
  }

  // The last window of a chain spans what it owns ...
  lemma LastSpans(cfg: Settings, built: seq<Built>, first: seq<Speech>, startIndex: nat, segments: seq<seq<Speech>>,
                  low: int, floor: int, next: int, n: int)
    requires Chained(cfg, built, first, startIndex, segments) && built != [] && n in Numbers(built[|built| - 1].owned)
    requires OverlapFits(first, low, floor) && low <= floor <= next
    requires Ascending(Flatten(segments)) && From(Flatten(segments), floor) && Below(Flatten(segments), next)
    ensures var w := built[|built| - 1].window; w.sequenceStart <= n <= w.sequenceEnd
  {
    var k := |built| - 1;
    var init, overlap := built[..k], OverlapAfter(cfg, built[..k], first, segments[..k]);
    ChainedNonempty(cfg, built, first, startIndex, segments);
    FlattenUnfolds(segments);
    SplitAscends(Flatten(segments), Flatten(segments[..k]), segments[k], floor, next);
    ChainedInOrder(cfg, init, first, startIndex, segments[..k], low, floor, segments[k][0].sequence);
    LastStartBelow(init, low, segments[k][0].sequence);
    OwnedAreSpanned(cfg, built[k], overlap, segments[k], startIndex + k, LastStart(init, low), segments[k][0].sequence, n);
  }

  // ... and so does every other one.
  lemma EachSpans(cfg: Settings, built: seq<Built>, first: seq<Speech>, startIndex: nat, segments: seq<seq<Speech>>,
                  low: int, floor: int, next: int, j: nat, n: int)
    requires Chained(cfg, built, first, startIndex, segments) && j < |built| && n in Numbers(built[j].owned)
    requires OverlapFits(first, low, floor) && low <= floor <= next
    requires Ascending(Flatten(segments)) && From(Flatten(segments), floor) && Below(Flatten(segments), next)
    ensures built[j].window.sequenceStart <= n <= built[j].window.sequenceEnd
  {
    ChainedPrefix(cfg, built, first, startIndex, segments, j + 1);
    FlattenPrefix(segments, j + 1);
    PartAscends(Flatten(segments[..j + 1]), Flatten(segments), floor, next);
    LastSpans(cfg, built[..j + 1], first, startIndex, segments[..j + 1], low, floor, next, n);
  }

  lemma BuiltSpans(cfg: Settings, db: Db, list: seq<Speech>, force: bool, skippable: set<int>, j: nat, n: int)
    requires Ordered(db.chunks) && InOrder(Docs(db.windows)) && From(list, ExpectedStart(db))
    requires var built := Build(cfg, list, |db.windows|, force, OverlapPrefix(db), skippable);
             j < |built| && n in Numbers(built[j].owned)
    ensures var w := Build(cfg, list, |db.windows|, force, OverlapPrefix(db), skippable)[j].window;
            w.sequenceStart <= n <= w.sequenceEnd
  {
    var start := ExpectedStart(db);
    OverlapOrdered(db);
    ReachableAscends(list, skippable);
    ReachableFrom(list, skippable, start);
    var segments := BuildPartitions(cfg, list, |db.windows|, force, OverlapPrefix(db), skippable, start);
    PrefixAscends(Flatten(segments), Reachable(list, skippable), start);
    var next := BoundOf(Flatten(segments), start);
    EachSpans(cfg, Build(cfg, list, |db.windows|, force, OverlapPrefix(db), skippable), Overlap(OverlapPrefix(db)), |db.windows|,
              segments, StartsFrom(db), start, next, j, n);
  }

  lemma {:induction false} NewlyStoredDoc(built: seq<Built>, deferred: bool, j: nat)
    requires j < |built|
    ensures NewlyStoredAll(built, deferred)[j].doc == built[j].window
  {
    if j < |built| - 1 {
      NewlyStoredDoc(built[..|built| - 1], deferred, j);
    }
  }

  // The chunk is in a window of the list, from `base` on, that spans its number.
  ghost predicate InNewWindow(before: Chunk, after: Option<Chunk>, windows: seq<StoredWindow>, base: nat) {
    && after.Some? && after.value.windowId.Some?
    && var j := after.value.windowId.value;
    && after.value == before.(processing := Processed, windowId := Some(j))
    && base <= j < |windows|
    && windows[j].doc.sequenceStart <= before.speech.sequence <= windows[j].doc.sequenceEnd
  }

  predicate SpanOwned(built: seq<Built>, n: int) {
    forall j :: 0 <= j < |built| && n in Numbers(built[j].owned) ==> built[j].window.sequenceStart <= n <= built[j].window.sequenceEnd
  }

  lemma CreatedAssigns(db: Db, built: seq<Built>, deferred: bool, c: Chunk)
    requires InOrder(Docs(db.windows) + Windows(built)) && SpanOwned(built, c.speech.sequence)
    requires Lookup(db.chunks, c.speech.sequence) == Some(c) && c.processing.Unprocessed?
    requires c.speech.sequence in OwnedSet(built) && c.speech.sequence !in SkippedSet(built)
    ensures var after := CreateWindows(db, built, deferred);
            InNewWindow(c, Lookup(after.chunks, c.speech.sequence), after.windows, |db.windows|)
  {
    var n := c.speech.sequence;
    CreatedClaims(db, built, deferred, c);
    OwnedHasOwner(built, n);
    OwnerIsBuilt(built, n);
    CreatedWindowsAre(db, built, deferred);
    NewlyStoredDoc(built, deferred, FirstOwner(WindowPartition.Owned(built), n).value);
  }

  lemma BuiltSpanOwned(cfg: Settings, db: Db, list: seq<Speech>, force: bool, skippable: set<int>, n: int)
    requires Ordered(db.chunks) && InOrder(Docs(db.windows)) && From(list, ExpectedStart(db))
    ensures SpanOwned(Build(cfg, list, |db.windows|, force, OverlapPrefix(db), skippable), n)
  {
    var built := Build(cfg, list, |db.windows|, force, OverlapPrefix(db), skippable);
    forall j | 0 <= j < |built| && n in Numbers(built[j].owned)
      ensures built[j].window.sequenceStart <= n <= built[j].window.sequenceEnd
    {
      BuiltSpans(cfg, db, list, force, skippable, j, n);
    }
  }

  // Later marks leave a processed chunk as it is.
  lemma MarkedAfter(db: Db, c: Chunk, windows: seq<StoredWindow>, base: nat, numbers: set<int>, reason: ExclusionReason)
    requires InNewWindow(c, Lookup(db.chunks, c.speech.sequence), windows, base)
    ensures InNewWindow(c, Lookup(MarkExcluded(db, numbers, reason).chunks, c.speech.sequence), windows, base)
  {
    ExcludedLookup(db.chunks, numbers, reason, c.speech.sequence);
  }

  lemma WindowedAssigns(cfg: Settings, ready: Db, plan: Plan, pipeline: bool, c: Chunk)
    requires Ordered(ready.chunks) && InOrder(Docs(ready.windows)) && From(Rest(plan), ExpectedStart(ready))
    requires Lookup(ready.chunks, c.speech.sequence) == Some(c) && c.processing.Unprocessed?
    requires var built := BuiltFrom(cfg, ready, plan, true); c.speech.sequence in OwnedSet(built) && c.speech.sequence !in SkippedSet(built)
    ensures var after := Windowed(cfg, ready, plan, true, pipeline);
            InNewWindow(c, Lookup(after.chunks, c.speech.sequence), after.windows, |ready.windows|)
  {
    var built, deferred := BuiltFrom(cfg, ready, plan, true), pipeline || ready.conversation.isExtension;
    var created := CreateWindows(ready, built, deferred);
    BuiltInOrder(cfg, ready, Rest(plan), true, SkippableNow(plan, Rest(plan), true));
    BuiltSpanOwned(cfg, ready, Rest(plan), true, SkippableNow(plan, Rest(plan), true), c.speech.sequence);
    CreatedAssigns(ready, built, deferred, c);
    MarkedAfter(created, c, created.windows, |ready.windows|, EmptyNumbers(Rest(plan)), EmptyTranscript);
  }

  // A call whose walk comes to a waiting chunk is neither blocked nor idle.
  lemma ReachedIsWindowed(cfg: Settings, db: Db, pipeline: bool, through: Option<int>, extra: set<int>, n: int)
    requires Ordered(db.chunks) && Waiting(db, through, n) && Reaches(db, through, extra, n)
    ensures var plan := MakePlan(db, through, extra);
            && Hole(plan.start, Rest(plan)) <= SkippableNow(plan, Rest(plan), true)
            && Close(cfg, db, true, pipeline, through, extra) ==
               Windowed(cfg, HoleMarked(Prepared(db, plan, through), plan, Rest(plan)), plan, true, pipeline)
  {
    var plan := MakePlan(db, through, extra);
    WaitingIsListed(db, through, extra, n);
    if !(Hole(plan.start, Rest(plan)) <= SkippableNow(plan, Rest(plan), true)) {
      BlockedHole(db, true, through, extra, n);
    }
  }

  // Every waiting chunk that a final close reaches ends up in a new window that spans it.
  lemma FinalCloseAssigns(cfg: Settings, db: Db, pipeline: bool, through: Option<int>, extra: set<int>, n: int)
    requires Ordered(db.chunks) && InOrder(Docs(db.windows)) && Waiting(db, through, n) && Reaches(db, through, extra, n)
    ensures var after := Close(cfg, db, true, pipeline, through, extra);
            InNewWindow(Lookup(db.chunks, n).value, Lookup(after.chunks, n), after.windows, |db.windows|)
  {
    var plan := MakePlan(db, through, extra);
    var ready := HoleMarked(Prepared(db, plan, through), plan, Rest(plan));
    ReachedIsWindowed(cfg, db, pipeline, through, extra, n);
    ReadyInOrder(db, through, extra);
    MarksSpare(db, through, extra, n);
    BuiltReaches(cfg, db, ready, through, extra, n);
    LookupNumber(db.chunks, n);
    WindowedAssigns(cfg, ready, plan, pipeline, Lookup(db.chunks, n).value);
  }

  // ----- what a final close leaves out

  lemma UnprocessedUnplaced(db: Db, last: int, n: int)
    requires Unplaced(db, n) && n <= last
    ensures Waiting(db, Some(last), n) <==> !Stranded(db, n)
  {
    LookupNumber(db.chunks, n);
  }

  // A chunk has no place after the final close exactly when it had none before,
  // and was stranded or could not be drained.
  lemma FinalCloseLeaves(cfg: Settings, db: Db, pipeline: bool, last: int, n: int)
    requires Ordered(db.chunks) && InOrder(Docs(db.windows)) && !SessionReadiness(db, last).unresolved && n <= last
    ensures Unplaced(Close(cfg, db, true, pipeline, Some(last), SessionReadiness(db, last).skippable), n) <==>
            Unplaced(db, n) && (Stranded(db, n) || !Drainable(db, n))
  {
    var extra := SessionReadiness(db, last).skippable;
    CloseOnlyMarks(cfg, db, true, pipeline, Some(last), extra, n);
    if Unplaced(db, n) {
      UnprocessedUnplaced(db, last, n);
      if !Stranded(db, n) {
        ForcedCloseTakes(cfg, db, pipeline, Some(last), extra, n);
        DrainableReaches(db, last, n);
        if Drainable(db, n) {
          FinalCloseAssigns(cfg, db, pipeline, Some(last), extra, n);
        }
      }
    }
  }

  // The final close leaves nothing useful out exactly when nothing without a place
  // is stranded or cut off.
  lemma FinalClosePlacesAll(cfg: Settings, db: Db, pipeline: bool, last: int)
    requires Ordered(db.chunks) && InOrder(Docs(db.windows)) && !SessionReadiness(db, last).unresolved
    ensures var after := Close(cfg, db, true, pipeline, Some(last), SessionReadiness(db, last).skippable);
            (forall n :: n <= last ==> !Unplaced(after, n)) <==>
            (forall n :: n <= last && Unplaced(db, n) ==> !Stranded(db, n) && Drainable(db, n))
  {
    var after := Close(cfg, db, true, pipeline, Some(last), SessionReadiness(db, last).skippable);
    forall n | n <= last
      ensures Unplaced(after, n) <==> Unplaced(db, n) && (Stranded(db, n) || !Drainable(db, n))
    {
      FinalCloseLeaves(cfg, db, pipeline, last, n);
    }
  }

  // What the gate lets pass: of a conversation that a call makes READY, the chunks
  // without a place are the stranded ones.
  lemma ReadyLeavesStranded(cfg: Settings, env: Surroundings, db: Db, last: int, n: int)
    requires Ordered(db.chunks) && InOrder(Docs(db.windows)) && db.conversation.expectedLast == Some(last) && env.incremental
    requires !IsSettledStatus(db.conversation.status) && n <= last
    requires Finalize(cfg, env, db).0.conversation.status.ReadyForProcessing?
    ensures Unplaced(Finalize(cfg, env, db).0, n) <==> Unplaced(db, n) && Stranded(db, n)
  {
    ReadyExactly(cfg, env, db, last);
    ClosedIsOrdered(cfg, env, db, last);
    AllDoneMeans(ClosedFinally(cfg, env, db, last), last);
    ReadyIsDrained(cfg, env, db, last);
    FinalCloseLeaves(cfg, db, env.pipeline, last, n);
    if Unplaced(db, n) {
      UnprocessedUnplaced(db, last, n);
    }
  }

  // ----- the chunks that are skipped

  function MarkedAs(c: Chunk, reason: ExclusionReason): Chunk {
    c.(processing := Processed, exclusion := Some(reason))
  }

  lemma {:induction false} EmptiesFind(list: seq<Speech>, n: int)
    requires Ascending(list)
    ensures Find(Empties(list), n) == if Find(list, n).Some? && !IsUseful(Find(list, n).value) then Find(list, n) else None
  {
    if list != [] {
      var init, last := list[..|list| - 1], list[|list| - 1];
      EmptiesFind(init, n);
      Snoc(Empties(init), last);
      if last.sequence == n {
        FindAbove(init, n);
      }
    }
  }

  lemma {:induction false} FailedNumbersAre(chunks: seq<Chunk>, start: nat, skippable: set<int>, n: int)
    requires Ordered(chunks) && Lookup(chunks, n).Some? && Lookup(chunks, n).value.stt.SttFailed? && start <= n && n in skippable
    ensures n in FailedNumbers(chunks, start, skippable)
  {
    LookupNumber(chunks, n);
    if chunks[|chunks| - 1].speech.sequence != n {
      FailedNumbersAre(chunks[..|chunks| - 1], start, skippable, n);
    }
  }

  // A chunk that is marked before any window is built stays marked so.
  lemma PreparedStays(cfg: Settings, db: Db, force: bool, pipeline: bool, through: Option<int>, extra: set<int>, n: int)
    requires var plan := MakePlan(db, through, extra);
             var found := Lookup(Prepared(db, plan, through).chunks, n);
             && !AlreadyCovered(db, force, through) && (plan.waiting != [] || plan.skippable != {})
             && found.Some? && !found.value.processing.Unprocessed?
    ensures Lookup(Close(cfg, db, force, pipeline, through, extra).chunks, n) ==
            Lookup(Prepared(db, MakePlan(db, through, extra), through).chunks, n)
  {
    var plan := MakePlan(db, through, extra);
    var prepared, hole := Prepared(db, plan, through), Hole(plan.start, Rest(plan));
    var ready := HoleMarked(prepared, plan, Rest(plan));
    MarkedOnlyMarks(prepared, hole - plan.present, SequenceMissing, hole * plan.present, SttFailure, n);
    WindowedOnlyMarks(cfg, ready, plan, force, pipeline, n);
    OnlyMarkedTwice(prepared.chunks, ready.chunks, Windowed(cfg, ready, plan, force, pipeline).chunks, n);
    CloseIsProceed(cfg, db, force, pipeline, through, extra);
  }

  lemma CloseIsProceed(cfg: Settings, db: Db, force: bool, pipeline: bool, through: Option<int>, extra: set<int>)
    requires var plan := MakePlan(db, through, extra);
             !AlreadyCovered(db, force, through) && (plan.waiting != [] || plan.skippable != {})
    ensures Close(cfg, db, force, pipeline, through, extra) ==
            Proceed(cfg, db, MakePlan(db, through, extra), force, pipeline, through)
  {
  }

  lemma FailureIsListed(db: Db, through: Option<int>, extra: set<int>, c: Chunk)
    requires Ordered(db.chunks) && Lookup(db.chunks, c.speech.sequence) == Some(c)
    requires (through.None? || c.speech.sequence <= through.value) && ExpectedStart(db) <= c.speech.sequence && c.stt.SttFailed?
    requires IsTerminalFailed(c) || c.exclusion.Some? || c.speech.sequence in extra
    ensures var plan := MakePlan(db, through, extra);
            && c.speech.sequence in plan.skippable
            && c.speech.sequence in FailedNumbers(UpTo(db.chunks, through), plan.start, plan.skippable)
  {
    var plan, n := MakePlan(db, through, extra), c.speech.sequence;
    PlanFacts(db, through, extra, n);
    UpToLookup(db.chunks, through, n);
    UpToOrdered(db.chunks, through, SpokenLine.Top(db.chunks) + 1);
    FailedNumbersAre(UpTo(db.chunks, through), plan.start, plan.skippable, n);
  }

  lemma FirstMarkStays(db: Db, first: set<int>, second: set<int>, c: Chunk)
    requires Lookup(db.chunks, c.speech.sequence) == Some(c) && c.processing.Unprocessed? && c.speech.sequence in first
    ensures Lookup(MarkExcluded(MarkExcluded(db, first, SttFailure), second, EmptyTranscript).chunks, c.speech.sequence) ==
            Some(MarkedAs(c, SttFailure))
  {
    ExcludedLookup(db.chunks, first, SttFailure, c.speech.sequence);
    ExcludedLookup(Excluded(db.chunks, first, SttFailure), second, EmptyTranscript, c.speech.sequence);
  }

  lemma FailureIsPrepared(db: Db, through: Option<int>, extra: set<int>, c: Chunk)
    requires Ordered(db.chunks) && Lookup(db.chunks, c.speech.sequence) == Some(c)
    requires (through.None? || c.speech.sequence <= through.value) && ExpectedStart(db) <= c.speech.sequence
    requires c.processing.Unprocessed? && c.stt.SttFailed?
    requires IsTerminalFailed(c) || c.exclusion.Some? || c.speech.sequence in extra
    ensures var plan := MakePlan(db, through, extra);
            && plan.skippable != {}
            && Lookup(Prepared(db, plan, through).chunks, c.speech.sequence) == Some(MarkedAs(c, SttFailure))
  {
    var plan := MakePlan(db, through, extra);
    FailureIsListed(db, through, extra, c);
    FirstMarkStays(db, FailedNumbers(UpTo(db.chunks, through), plan.start, plan.skippable), Leading(plan), c);
  }

  lemma {:induction false} CoveredAre(windows: seq<StoredWindow>, n: int)
    ensures n in CoveredNumbers(windows) <==>
            exists i :: 0 <= i < |windows| && windows[i].doc.sequenceStart <= n <= windows[i].doc.sequenceEnd
  {
    if windows != [] {
      var init := windows[..|windows| - 1];
      CoveredAre(init, n);
      if exists i :: 0 <= i < |windows| && windows[i].doc.sequenceStart <= n <= windows[i].doc.sequenceEnd {
        var i :| 0 <= i < |windows| && windows[i].doc.sequenceStart <= n <= windows[i].doc.sequenceEnd;
        assert i < |init| ==> init[i] == windows[i];
      }
      if exists i :: 0 <= i < |init| && init[i].doc.sequenceStart <= n <= init[i].doc.sequenceEnd {
        var i :| 0 <= i < |init| && init[i].doc.sequenceStart <= n <= init[i].doc.sequenceEnd;
        assert windows[i] == init[i];
      }
    }
  }

  // A useful chunk among those the call reads.
  predicate UsefulWithin(db: Db, through: Option<int>, n: int) {
    && Lookup(db.chunks, n).Some? && (through.None? || n <= through.value)
    && Lookup(db.chunks, n).value.stt == SttCompleted && Lookup(db.chunks, n).value.speech.text != ""
  }

  predicate SpannedBy(windows: seq<StoredWindow>, n: int) {
    exists i :: 0 <= i < |windows| && windows[i].doc.sequenceStart <= n <= windows[i].doc.sequenceEnd
  }

  lemma SomeNumber(numbers: set<int>) returns (n: int)
    requires numbers != {}
    ensures n in numbers
  {
    assert exists n :: n in numbers by {
      if forall n :: n !in numbers {
        assert false;
      }
    }
    n :| n in numbers;
  }

  // A final close is skipped when there is something useful and the stored
  // windows span all of it; it then changes nothing.
  lemma CoveredCloseIsIdle(cfg: Settings, db: Db, force: bool, pipeline: bool, through: Option<int>, extra: set<int>)
    requires Ordered(db.chunks)
    ensures AlreadyCovered(db, force, through) <==>
            && force && (exists n :: UsefulWithin(db, through, n))
            && forall n :: UsefulWithin(db, through, n) ==> SpannedBy(db.windows, n)
    ensures AlreadyCovered(db, force, through) ==> Close(cfg, db, force, pipeline, through, extra) == db
  {
    var useful, covered := UsefulNumbers(UpTo(db.chunks, through)), CoveredNumbers(db.windows);
    UpToOrdered(db.chunks, through, SpokenLine.Top(db.chunks) + 1);
    forall n: int
      ensures n in useful <==> UsefulWithin(db, through, n)
      ensures n in covered <==> SpannedBy(db.windows, n)
    {
      UpToLookup(db.chunks, through, n);
      UsefulNumbersLookup(UpTo(db.chunks, through), n);
      CoveredAre(db.windows, n);
    }
    if useful != {} {
      var n := SomeNumber(useful);
      assert UsefulWithin(db, through, n);
    }
  }

  // A failed chunk that may be skipped is marked as such by every call that
  // is not idle, whether a hole blocks its windows or not.
  lemma FailuresAreMarked(cfg: Settings, db: Db, force: bool, pipeline: bool, through: Option<int>, extra: set<int>, c: Chunk)
    requires Ordered(db.chunks) && Lookup(db.chunks, c.speech.sequence) == Some(c)
    requires (through.None? || c.speech.sequence <= through.value) && ExpectedStart(db) <= c.speech.sequence
    requires c.processing.Unprocessed? && c.stt.SttFailed?
    requires (IsTerminalFailed(c) || c.exclusion.Some? || c.speech.sequence in extra) && !AlreadyCovered(db, force, through)
    ensures Lookup(Close(cfg, db, force, pipeline, through, extra).chunks, c.speech.sequence) == Some(MarkedAs(c, SttFailure))
  {
    FailureIsPrepared(db, through, extra, c);
    PreparedStays(cfg, db, force, pipeline, through, extra, c.speech.sequence);
  }

  // Storing windows may only mark a chunk that none of them owns as empty.
  predicate KeptOrEmpty(c: Chunk, after: Option<Chunk>) {
    after == Some(c) || after == Some(MarkedAs(c, EmptyTranscript))
  }

  lemma {:induction false} CreatedKeepsOrEmpties(db: Db, built: seq<Built>, deferred: bool, c: Chunk)
    requires Lookup(db.chunks, c.speech.sequence) == Some(c) && c.processing.Unprocessed? && c.speech.sequence !in OwnedSet(built)
    ensures KeptOrEmpty(c, Lookup(CreateWindows(db, built, deferred).chunks, c.speech.sequence))
  {
    if built != [] {
      var earlier, b := CreateWindows(db, built[..|built| - 1], deferred), built[|built| - 1];
      CreatedKeepsOrEmpties(db, built[..|built| - 1], deferred, c);
      OneKeepsOrEmpties(earlier, b, deferred, c);
    }
  }

  lemma OneKeepsOrEmpties(db: Db, b: Built, deferred: bool, c: Chunk)
    requires KeptOrEmpty(c, Lookup(db.chunks, c.speech.sequence)) && c.speech.sequence !in Numbers(b.owned)
    ensures KeptOrEmpty(c, Lookup(CreateWindow(db, b, deferred).chunks, c.speech.sequence))
  {
    var id := Stored(db.windows, b, deferred).1;
    ClaimedLookup(db.chunks, Numbers(b.owned), id, c.speech.sequence);
    ExcludedLookup(Claimed(db.chunks, Numbers(b.owned), id), Numbers(b.skipped), EmptyTranscript, c.speech.sequence);
  }

  // An empty chunk that is not a leading one is among the rest, and no mark
  // before the windows touches it.
  lemma EmptyIsReady(db: Db, through: Option<int>, extra: set<int>, c: Chunk)
    requires Ordered(db.chunks) && Lookup(db.chunks, c.speech.sequence) == Some(c) && IsUnwindowed(c)
    requires (through.None? || c.speech.sequence <= through.value) && ExpectedStart(db) <= c.speech.sequence
    ensures var plan := MakePlan(db, through, extra);
            && plan.waiting != []
            && (if c.speech.sequence in Leading(plan)
                then Lookup(Prepared(db, plan, through).chunks, c.speech.sequence) == Some(MarkedAs(c, EmptyTranscript))
                else Find(Rest(plan), c.speech.sequence) == Some(c.speech)
                     && Lookup(HoleMarked(Prepared(db, plan, through), plan, Rest(plan)).chunks, c.speech.sequence) == Some(c))
  {
    var plan, n := MakePlan(db, through, extra), c.speech.sequence;
    var all := UpTo(db.chunks, through);
    var failed := FailedNumbers(all, plan.start, plan.skippable);
    PlanFacts(db, through, extra, n);
    LeadingFacts(db, through, extra, n);
    UpToLookup(db.chunks, through, n);
    UpToOrdered(db.chunks, through, SpokenLine.Top(db.chunks) + 1);
    if n in failed {
      FailedLookup(all, plan.start, plan.skippable, n);
    }
    ExcludedLookup(db.chunks, failed, SttFailure, n);
    ExcludedLookup(Excluded(db.chunks, failed, SttFailure), Leading(plan), EmptyTranscript, n);
    if n !in Leading(plan) {
      NotInHole(plan, Rest(plan), n);
      HoleSpares(Prepared(db, plan, through), plan, Rest(plan), n);
    }
  }

  // A final close that no hole blocks leaves no empty chunk unprocessed.
  lemma EmptiesAreMarked(cfg: Settings, db: Db, pipeline: bool, through: Option<int>, extra: set<int>, c: Chunk)
    requires Ordered(db.chunks) && Lookup(db.chunks, c.speech.sequence) == Some(c) && IsUnwindowed(c) && !IsUseful(c.speech)
    requires (through.None? || c.speech.sequence <= through.value) && ExpectedStart(db) <= c.speech.sequence
    requires !AlreadyCovered(db, true, through)
    requires var plan := MakePlan(db, through, extra); Hole(plan.start, Rest(plan)) <= SkippableNow(plan, Rest(plan), true)
    ensures Lookup(Close(cfg, db, true, pipeline, through, extra).chunks, c.speech.sequence) == Some(MarkedAs(c, EmptyTranscript))
  {
    var plan, n := MakePlan(db, through, extra), c.speech.sequence;
    EmptyIsReady(db, through, extra, c);
    if n in Leading(plan) {
      PreparedStays(cfg, db, true, pipeline, through, extra, n);
    } else {
      CloseIsProceed(cfg, db, true, pipeline, through, extra);
      EmptyIsLeftOver(cfg, db, HoleMarked(Prepared(db, plan, through), plan, Rest(plan)), pipeline, through, extra, c);
    }
  }

  lemma EmptyIsNotOwned(cfg: Settings, db: Db, ready: Db, through: Option<int>, extra: set<int>, n: int)
    requires Ordered(db.chunks) && ready.windows == db.windows && ready.conversation == db.conversation
    requires var found := Find(Rest(MakePlan(db, through, extra)), n); found.Some? && !IsUseful(found.value)
    ensures n !in OwnedSet(BuiltFrom(cfg, ready, MakePlan(db, through, extra), true))
    ensures n in EmptyNumbers(Rest(MakePlan(db, through, extra)))
  {
    var plan := MakePlan(db, through, extra);
    var rest, sk := Rest(plan), SkippableNow(plan, Rest(plan), true);
    LeadingFacts(db, through, extra, n);
    OverlapBelow(ready);
    ForcedBuildOwns(cfg, rest, |ready.windows|, OverlapPrefix(ready), sk, plan.start, n);
    ReachableFind(rest, sk, n);
    NumbersFind(Empties(rest), n);
    EmptiesFind(rest, n);
  }

  lemma LeftoverIsMarked(db: Db, built: seq<Built>, deferred: bool, leftover: set<int>, c: Chunk)
    requires Lookup(db.chunks, c.speech.sequence) == Some(c) && c.processing.Unprocessed?
    requires c.speech.sequence !in OwnedSet(built) && c.speech.sequence in leftover
    ensures Lookup(MarkExcluded(CreateWindows(db, built, deferred), leftover, EmptyTranscript).chunks, c.speech.sequence) ==
            Some(MarkedAs(c, EmptyTranscript))
  {
    CreatedKeepsOrEmpties(db, built, deferred, c);
    ExcludedLookup(CreateWindows(db, built, deferred).chunks, leftover, EmptyTranscript, c.speech.sequence);
  }

  lemma EmptyIsLeftOver(cfg: Settings, db: Db, ready: Db, pipeline: bool, through: Option<int>, extra: set<int>, c: Chunk)
    requires Ordered(db.chunks) && ready.windows == db.windows && ready.conversation == db.conversation
    requires Lookup(ready.chunks, c.speech.sequence) == Some(c) && c.processing.Unprocessed? && !IsUseful(c.speech)
    requires Find(Rest(MakePlan(db, through, extra)), c.speech.sequence) == Some(c.speech)
    ensures Lookup(Windowed(cfg, ready, MakePlan(db, through, extra), true, pipeline).chunks, c.speech.sequence) ==
            Some(MarkedAs(c, EmptyTranscript))
  {
    var plan := MakePlan(db, through, extra);
    EmptyIsNotOwned(cfg, db, ready, through, extra, c.speech.sequence);
    LeftoverIsMarked(ready, BuiltFrom(cfg, ready, plan, true), pipeline || ready.conversation.isExtension,
                     EmptyNumbers(Rest(plan)), c);
  }

  // ----- the gate, from what is stored before the call

  lemma {:induction false} ReclaimedAt(windows: seq<StoredWindow>, stale: set<int>, i: nat)
    requires i < |windows|
    ensures ReclaimedWindows(windows, stale)[i] == if i in stale then ReclaimedWindow(windows[i]) else windows[i]
  {
    if i < |windows| - 1 {
      ReclaimedAt(windows[..|windows| - 1], stale, i);
    }
  }

  // A stored window that does not keep the conversation from being ready.
  predicate IsDone(w: StoredWindow, stale: bool) {
    var now := if stale then ReclaimedWindow(w) else w;
    !Blocks(now) && !IsGap(now)
  }

  lemma WindowDone(cfg: Settings, env: Surroundings, db: Db, last: int, i: nat)
    requires Ordered(db.chunks) && InOrder(Docs(db.windows)) && (env.pipeline || db.conversation.isExtension)
    requires i < |ClosedFinally(cfg, env, db, last).windows|
    ensures var w := ClosedFinally(cfg, env, db, last).windows[i];
            (!Blocks(w) && !IsGap(w)) <==> (i < |db.windows| ==> IsDone(db.windows[i], i in env.staleWindows))
  {
    var extra := SessionReadiness(db, last).skippable;
    var closed := Close(cfg, db, true, env.pipeline, Some(last), extra);
    ReclaimedAt(closed.windows, env.staleWindows, i);
    CloseKeepsOrder(cfg, db, true, env.pipeline, Some(last), extra);
    if i >= |db.windows| {
      DeferredCloseRetains(cfg, db, env.pipeline, Some(last), extra, i);
    }
  }

  lemma KeepsWindows(cfg: Settings, env: Surroundings, db: Db, last: int)
    requires Ordered(db.chunks) && InOrder(Docs(db.windows))
    ensures |db.windows| <= |ClosedFinally(cfg, env, db, last).windows|
  {
    CloseKeepsOrder(cfg, db, true, env.pipeline, Some(last), SessionReadiness(db, last).skippable);
  }

  lemma WindowsDone(cfg: Settings, env: Surroundings, db: Db, last: int)
    requires Ordered(db.chunks) && InOrder(Docs(db.windows)) && (env.pipeline || db.conversation.isExtension)
    ensures var closed := ClosedFinally(cfg, env, db, last);
            (forall i :: 0 <= i < |closed.windows| ==> !Blocks(closed.windows[i]) && !IsGap(closed.windows[i])) <==>
            (forall i :: 0 <= i < |db.windows| ==> IsDone(db.windows[i], i in env.staleWindows))
  {
    var closed := ClosedFinally(cfg, env, db, last);
    KeepsWindows(cfg, env, db, last);
    forall i | 0 <= i < |closed.windows|
      ensures (!Blocks(closed.windows[i]) && !IsGap(closed.windows[i])) <==>
              (i < |db.windows| ==> IsDone(db.windows[i], i in env.staleWindows))
    {
      WindowDone(cfg, env, db, last, i);
    }
  }

  // With the meeting pipeline, or for an extension, nothing is left to do after
  // the final close exactly when every waiting chunk can be drained and the
  // windows stored before are done: the new ones never stand in the way.
  lemma DeferredReady(cfg: Settings, env: Surroundings, db: Db, last: int)
    requires Ordered(db.chunks) && InOrder(Docs(db.windows)) && (env.pipeline || db.conversation.isExtension)
    requires !SessionReadiness(db, last).unresolved
    ensures AllDone(ClosedFinally(cfg, env, db, last), last) <==>
            && (forall n :: Waiting(db, Some(last), n) ==> Drainable(db, n))
            && forall i :: 0 <= i < |db.windows| ==> IsDone(db.windows[i], i in env.staleWindows)
  {
    ClosedIsOrdered(cfg, env, db, last);
    AllDoneMeans(ClosedFinally(cfg, env, db, last), last);
    ReadyIsDrained(cfg, env, db, last);
    WindowsDone(cfg, env, db, last);
  }
}

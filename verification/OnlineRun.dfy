// Runs of arrivals and calls, against one call at the end.

module OnlineRun {
  import opened Seqs
  import opened Text
  import opened Models
  import opened Windowing
  import opened WindowPartition
  import opened WindowCore
  import opened Store
  import opened Incremental
  import opened Lookups
  import opened ForcedClose
  import opened WindowOrder
  import opened SpokenLine
  import opened OnlineBatch

  // ----- one call

  ghost predicate Fair(cfg: Settings, line: seq<Speech>) {
    cfg.sparseWallMs <= 0 && CostStable(cfg, line) && CostsSomething(cfg, line)
  }

  lemma UsefulPrefixFind(a: seq<Speech>, b: seq<Speech>, n: int)
    requires a <= b && Ascending(b) && Find(Useful(a), n).Some?
    ensures Find(b, n).Some? && IsUseful(Find(b, n).value)
  {
    FindNumber(Useful(a), n);
    UsefulOnly(a);
    var c := Find(Useful(a), n).value;
    assert c in Useful(a);
    var i :| 0 <= i < |a| && a[i] == c;
    assert b[i] == c;
    FindAt(b, i);
  }

  function BuiltNow(cfg: Settings, db: Db): seq<Built> {
    BuiltFrom(cfg, Ready(db), PlanOf(db), false)
  }

  // A window owns only chunks that speak and skips only quiet ones.
  lemma ListsWhatItShould(cfg: Settings, db: Db, first: seq<Speech>, startIndex: nat, segments: seq<seq<Speech>>, n: int)
    requires Ordered(db.chunks) && Chained(cfg, BuiltNow(cfg, db), first, startIndex, segments)
    requires Flatten(segments) <= Reachable(Rest(PlanOf(db)), PlanOf(db).skippable)
    ensures n in OwnedSet(BuiltNow(cfg, db)) ==> SpeaksAt(db.chunks, n)
    ensures n in SkippedSet(BuiltNow(cfg, db)) ==> QuietAt(db.chunks, n)
  {
    var rest, skippable := Rest(PlanOf(db)), PlanOf(db).skippable;
    ListedNumbers(cfg, BuiltNow(cfg, db), first, startIndex, segments, n);
    ReachableAscends(rest, skippable);
    RestIsWaiting(db, n);
    if rest != [] {
      ReachableFind(rest, skippable, n);
    }
    if Find(Useful(Flatten(segments)), n).Some? {
      UsefulPrefixFind(Flatten(segments), Reachable(rest, skippable), n);
    }
    if Find(Empties(Flatten(segments)), n).Some? {
      EmptiesPrefixFind(Flatten(segments), Reachable(rest, skippable), n);
    }
  }

  function NextCore(cfg: Settings, db: Db, k: Core, n0: nat): Core
    requires n0 <= |LineOf(db)|
  {
    CoreSettle(cfg, CoreRun(cfg, Begun(k.overlap), LineOf(db)[n0..]))
  }

  ghost predicate BuiltIs(cfg: Settings, built: seq<Built>, first: seq<Speech>, index: nat, segments: seq<seq<Speech>>, k: Core) {
    && Chained(cfg, built, first, index, segments)
    && WindowPartition.Owned(built) == k.owned && OverlapAfter(cfg, built, first, segments) == k.overlap
    && Wholes(cfg, built, first, segments) == k.lists
  }

  lemma SuffixStable(cfg: Settings, line: seq<Speech>, i: nat, j: nat)
    requires CostStable(cfg, line) && i <= j <= |line|
    ensures CostStable(cfg, line[i..j] + line[j..])
  {
    Cut(line, i);
    StablePrefix(cfg, line[..i], line[i..]);
    assert line[i..j] + line[j..] == line[i..];
  }

  lemma BuiltNowIs(cfg: Settings, db: Db, k: Core, size: nat, n0: nat, from: nat) returns (segments: seq<seq<Speech>>)
    requires Tracking(db, k) && Owning(db, k, size, n0, from) && Unblocked(db) && Fair(cfg, LineOf(db))
    ensures BuiltIs(cfg, BuiltNow(cfg, db), k.overlap, |db.windows|, segments, NextCore(cfg, db, k, n0))
  {
    var plan, ready := PlanOf(db), Ready(db);
    ReadyOverlap(db, k, size, n0, from);
    NewsIsReached(db, k, size, n0, from);
    OverlapBelow(ready);
    LeadingFacts(db, None, {}, 0);
    ReachableFrom(Rest(plan), plan.skippable, plan.start);
    SuffixStable(cfg, LineOf(db), from, n0);
    segments := BuildIsCore(cfg, Rest(plan), |ready.windows|, OverlapPrefix(ready), plan.skippable, plan.start);
  }

  lemma ReadyOverlap(db: Db, k: Core, size: nat, n0: nat, from: nat)
    requires Tracking(db, k) && Owning(db, k, size, n0, from) && Unblocked(db)
    ensures Overlap(OverlapPrefix(Ready(db))) == k.overlap && Ready(db).windows == db.windows
    ensures ExpectedStart(Ready(db)) == ExpectedStart(db)
  {
    ReadyTracks(db, k);
    OverlapIsRead(Ready(db), k, size, n0, from);
  }

  lemma BuiltLists(cfg: Settings, db: Db, k: Core, n: int)
    requires Tracking(db, k) && Unblocked(db)
    ensures n in OwnedSet(BuiltNow(cfg, db)) ==> SpeaksAt(db.chunks, n)
    ensures n in SkippedSet(BuiltNow(cfg, db)) ==> QuietAt(db.chunks, n)
  {
    var plan, ready := PlanOf(db), Ready(db);
    ReadyTracks(db, k);
    OverlapBelow(ready);
    LeadingFacts(db, None, {}, 0);
    ReachableFrom(Rest(plan), plan.skippable, plan.start);
    var segments := BuildPartitions(cfg, Rest(plan), |ready.windows|, false, OverlapPrefix(ready), plan.skippable, plan.start);
    ListsWhatItShould(cfg, db, Overlap(OverlapPrefix(ready)), |ready.windows|, segments, n);
  }

  lemma StillSpeaks(before: seq<Chunk>, after: seq<Chunk>, n: int)
    requires OnlyMarked(before, after, n)
    ensures SpeaksAt(after, n) <==> SpeaksAt(before, n)
    ensures QuietAt(after, n) <==> QuietAt(before, n)
  {
  }

  function AfterCall(cfg: Settings, pipeline: bool, db: Db): Db {
    Windowed(cfg, Ready(db), PlanOf(db), false, pipeline)
  }

  lemma WindowsAfterCall(cfg: Settings, pipeline: bool, db: Db, k: Core)
    requires Tracking(db, k) && Unblocked(db)
    ensures var after, built := AfterCall(cfg, pipeline, db), BuiltNow(cfg, db);
            && after == CreateWindows(Ready(db), built, false)
            && Ordered(after.chunks) && InOrder(Docs(after.windows)) && db.windows <= after.windows
            && Docs(after.windows) == Docs(db.windows) + Windows(built)
            && InOrder(Docs(Ready(db).windows) + Windows(built))
  {
    ReadyTracks(db, k);
    LeadingFacts(db, None, {}, 0);
    WindowedInOrder(cfg, Ready(db), PlanOf(db), false, pipeline);
  }

  lemma CoreAfterCall(cfg: Settings, db: Db, done: seq<Speech>, k: Core, n0: nat, from: nat, segments: seq<seq<Speech>>)
    requires k == CoreAfter(cfg, done) && done <= LineOf(db) && Owning(db, k, |done|, n0, from) && CostsSomething(cfg, LineOf(db))
    requires BuiltIs(cfg, BuiltNow(cfg, db), k.overlap, |db.windows|, segments, NextCore(cfg, db, k, n0))
    ensures var next, built := CoreAfter(cfg, LineOf(db)), BuiltNow(cfg, db);
            && next.owned == k.owned + WindowPartition.Owned(built)
            && next.overlap == OverlapAfter(cfg, built, k.overlap, segments)
            && next.lists == k.lists + Wholes(cfg, built, k.overlap, segments)
  {
    CoreOfCall(cfg, done, LineOf(db), k, n0);
  }

  lemma MatchAppended(cfg: Settings, windows: seq<StoredWindow>, after: seq<StoredWindow>, built: seq<Built>, k: Core, index: nat,
                      segments: seq<seq<Speech>>, next: Core)
    requires LastMatches(windows, k) && windows <= after && Docs(after) == Docs(windows) + Windows(built)
    requires Chained(cfg, built, k.overlap, index, segments)
    requires next.owned == k.owned + WindowPartition.Owned(built)
    requires next.overlap == OverlapAfter(cfg, built, k.overlap, segments)
    ensures LastMatches(after, next)
  {
    OwnedSize(built);
    EmptyRight(k.owned);
    if built != [] {
      LastBuilt(cfg, built, k.overlap, index, segments);
    }
    AppendedMatch(windows, after, built, k, next);
  }

  lemma MatchAfterCall(cfg: Settings, pipeline: bool, db: Db, k: Core, segments: seq<seq<Speech>>, next: Core)
    requires Tracking(db, k) && Unblocked(db)
    requires Chained(cfg, BuiltNow(cfg, db), k.overlap, |db.windows|, segments)
    requires next.owned == k.owned + WindowPartition.Owned(BuiltNow(cfg, db))
    requires next.overlap == OverlapAfter(cfg, BuiltNow(cfg, db), k.overlap, segments)
    ensures LastMatches(AfterCall(cfg, pipeline, db).windows, next)
  {
    WindowsAfterCall(cfg, pipeline, db, k);
    MatchAppended(cfg, db.windows, AfterCall(cfg, pipeline, db).windows, BuiltNow(cfg, db), k, |db.windows|, segments, next);
  }

  lemma TracksAfterCall(cfg: Settings, pipeline: bool, db: Db, k: Core)
    requires Tracking(db, k) && Unblocked(db)
    ensures Tracked(AfterCall(cfg, pipeline, db).chunks, k.owned + WindowPartition.Owned(BuiltNow(cfg, db)))
  {
    var built, ready := BuiltNow(cfg, db), Ready(db);
    WindowsAfterCall(cfg, pipeline, db, k);
    ReadyTracks(db, k);
    forall n: int
      ensures TracksAt(AfterCall(cfg, pipeline, db).chunks, k.owned + WindowPartition.Owned(built), n)
    {
      BuiltLists(cfg, db, k, n);
      ReadyOnlyMarks(db, None, {}, n);
      StillSpeaks(db.chunks, ready.chunks, n);
      assert TracksAt(ready.chunks, k.owned, n);
      CreatedTracks(ready, built, false, k.owned, n);
    }
  }

  lemma SameLine(cfg: Settings, before: Db, after: Db)
    requires Ordered(before.chunks) && Ordered(after.chunks) && after.conversation == before.conversation
    requires forall n :: OnlyMarked(before.chunks, after.chunks, n)
    ensures LineOf(after) == LineOf(before)
  {
    forall n: int
      ensures SameTranscript(before.chunks, after.chunks, n)
    {
      assert OnlyMarked(before.chunks, after.chunks, n);
    }
    LineOfSame(before.chunks, after.chunks, FirstSequence(before.conversation));
  }

  lemma LineAfterCall(cfg: Settings, pipeline: bool, db: Db, k: Core)
    requires Tracking(db, k) && Unblocked(db)
    ensures LineOf(AfterCall(cfg, pipeline, db)) == LineOf(db)
  {
    var ready, after := Ready(db), AfterCall(cfg, pipeline, db);
    ReadyTracks(db, k);
    WindowsAfterCall(cfg, pipeline, db, k);
    ConversationStays(ready, BuiltNow(cfg, db), false);
    forall n: int
      ensures OnlyMarked(ready.chunks, after.chunks, n)
    {
      WindowedOnlyMarks(cfg, ready, PlanOf(db), false, pipeline, n);
    }
    SameLine(cfg, ready, after);
  }

  lemma TrackingAfterCall(cfg: Settings, pipeline: bool, db: Db, k: Core, segments: seq<seq<Speech>>, next: Core)
    requires Tracking(db, k) && Unblocked(db)
    requires Chained(cfg, BuiltNow(cfg, db), k.overlap, |db.windows|, segments)
    requires next.owned == k.owned + WindowPartition.Owned(BuiltNow(cfg, db))
    requires next.overlap == OverlapAfter(cfg, BuiltNow(cfg, db), k.overlap, segments)
    ensures Tracking(AfterCall(cfg, pipeline, db), next)
  {
    MatchAfterCall(cfg, pipeline, db, k, segments, next);
    TracksAfterCall(cfg, pipeline, db, k);
    WindowsAfterCall(cfg, pipeline, db, k);
  }

  lemma RecordedAfterCall(cfg: Settings, pipeline: bool, db: Db, k: Core, segments: seq<seq<Speech>>)
    requires Tracking(db, k) && Unblocked(db) && Recorded(cfg, Docs(db.windows), k.lists)
    requires Chained(cfg, BuiltNow(cfg, db), k.overlap, |db.windows|, segments)
    ensures Recorded(cfg, Docs(AfterCall(cfg, pipeline, db).windows), k.lists + Wholes(cfg, BuiltNow(cfg, db), k.overlap, segments))
  {
    WindowsAfterCall(cfg, pipeline, db, k);
    BuildNotFinal(cfg, Rest(PlanOf(db)), |Ready(db).windows|, OverlapPrefix(Ready(db)), PlanOf(db).skippable);
    RecordedMore(cfg, Docs(db.windows), k.lists, BuiltNow(cfg, db), k.overlap, segments);
  }

  lemma AfterCallOnline(cfg: Settings, pipeline: bool, db: Db, done: seq<Speech>)
    requires Online(cfg, db, done) && Unblocked(db) && Fair(cfg, LineOf(db))
    ensures var after := AfterCall(cfg, pipeline, db); Online(cfg, after, LineOf(db)) && LineOf(after) == LineOf(db)
  {
    var k := CoreAfter(cfg, done);
    var n0, from := OnlineOwns(cfg, db, done);
    var segments := BuiltNowIs(cfg, db, k, |done|, n0, from);
    CoreAfterCall(cfg, db, done, k, n0, from, segments);
    TrackingAfterCall(cfg, pipeline, db, k, segments, CoreAfter(cfg, LineOf(db)));
    RecordedAfterCall(cfg, pipeline, db, k, segments);
    LineAfterCall(cfg, pipeline, db, k);
  }

  function Called(cfg: Settings, pipeline: bool, db: Db): Db {
    Close(cfg, db, false, pipeline, None, {})
  }

  // A call that stores no window.
  lemma IdleCall(cfg: Settings, pipeline: bool, db: Db)
    requires !Unblocked(db) || (PlanOf(db).waiting == [] && PlanOf(db).skippable == {})
    ensures Called(cfg, pipeline, db) == db || Called(cfg, pipeline, db) == Prepared(db, PlanOf(db), None)
  {
  }

  lemma BusyCall(cfg: Settings, pipeline: bool, db: Db)
    requires Unblocked(db) && (PlanOf(db).waiting != [] || PlanOf(db).skippable != {})
    ensures Called(cfg, pipeline, db) == AfterCall(cfg, pipeline, db)
  {
  }

  lemma IdleOnline(cfg: Settings, pipeline: bool, db: Db, done: seq<Speech>)
    requires Online(cfg, db, done)
    requires !Unblocked(db) || (PlanOf(db).waiting == [] && PlanOf(db).skippable == {})
    ensures done == LineOf(db)
    ensures Tracking(Called(cfg, pipeline, db), CoreAfter(cfg, done)) && LineOf(Called(cfg, pipeline, db)) == LineOf(db)
    ensures Called(cfg, pipeline, db).windows == db.windows
  {
    var k := CoreAfter(cfg, done);
    var n0, from := OnlineOwns(cfg, db, done);
    NoNews(db, k, |done|, n0, from);
    PreparedTracks(db, k);
    IdleCall(cfg, pipeline, db);
    TakeAll(LineOf(db));
  }

  // After a call the stored windows are those of the whole line.
  lemma CallOnline(cfg: Settings, pipeline: bool, db: Db, done: seq<Speech>)
    requires Online(cfg, db, done) && Fair(cfg, LineOf(db))
    ensures Online(cfg, Called(cfg, pipeline, db), LineOf(db)) && LineOf(Called(cfg, pipeline, db)) == LineOf(db)
  {
    if Unblocked(db) && (PlanOf(db).waiting != [] || PlanOf(db).skippable != {}) {
      AfterCallOnline(cfg, pipeline, db, done);
      BusyCall(cfg, pipeline, db);
    } else {
      IdleOnline(cfg, pipeline, db, done);
    }
  }

  // ----- runs

  // A transcript that has just arrived carries no mark of an earlier window.
  predicate IsFresh(c: Chunk) {
    && c.windowId.None?
    && (c.exclusion.Some? ==> IsTerminalFailed(c))
    && (c.stt.SttCompleted? ==> c.processing.Unprocessed?)
  }

  predicate ArrivesAt(before: Option<Chunk>, after: Option<Chunk>) {
    if before.Some? && IsSettled(before.value) then after == before
    else after.Some? ==> IsFresh(after.value)
  }

  // Between two calls transcripts arrive or fail for good; what is settled stays,
  // and workers may change the state of windows but not what they hold.
  ghost predicate Arrives(before: Db, after: Db) {
    && Docs(after.windows) == Docs(before.windows) && after.conversation.isExtension == before.conversation.isExtension
    && Ordered(after.chunks)
    && forall n :: ArrivesAt(Lookup(before.chunks, n), Lookup(after.chunks, n))
  }

  ghost predicate Untouched(db: Db) {
    && db.windows == [] && Ordered(db.chunks)
    && forall n :: Lookup(db.chunks, n).Some? ==> IsFresh(Lookup(db.chunks, n).value)
  }

  // `states[i]` is what call i finds.
  ghost predicate IsRun(cfg: Settings, pipeline: bool, states: seq<Db>) {
    && states != [] && Untouched(states[0])
    && forall i, j :: 0 <= i && j == i + 1 < |states| ==> Arrives(Called(cfg, pipeline, states[i]), states[j])
  }

  lemma UntouchedOnline(cfg: Settings, db: Db)
    requires Untouched(db)
    ensures Online(cfg, db, [])
  {
    forall n: int
      ensures TracksAt(db.chunks, [], n)
    {
      assert Lookup(db.chunks, n).Some? ==> IsFresh(Lookup(db.chunks, n).value);
    }
  }

  // No window owns a number whose transcript is not settled.
  lemma OwnedAreSettled(db: Db, k: Core, size: nat, n0: nat, from: nat, n: int)
    requires Tracking(db, k) && Owning(db, k, size, n0, from) && FirstOwner(k.owned, n).Some?
    ensures SpokenLine.Settled(db.chunks, n)
  {
    LineParts(db, k, size, n0, from, n);
    LineFind(db.chunks, FirstSequence(db.conversation), n);
  }

  lemma ArrivalTracks(before: Db, after: Db, k: Core, size: nat, n0: nat, from: nat, n: int)
    requires Tracking(before, k) && Owning(before, k, size, n0, from) && Arrives(before, after)
    ensures TracksAt(after.chunks, k.owned, n)
    ensures SpokenLine.Settled(before.chunks, n) ==> Lookup(after.chunks, n) == Lookup(before.chunks, n)
  {
    assert ArrivesAt(Lookup(before.chunks, n), Lookup(after.chunks, n));
    assert TracksAt(before.chunks, k.owned, n);
    if FirstOwner(k.owned, n).Some? {
      OwnedAreSettled(before, k, size, n0, from, n);
    }
  }

  lemma ArrivalKeeps(before: Db, after: Db, k: Core, size: nat, n0: nat, from: nat)
    requires Tracking(before, k) && Owning(before, k, size, n0, from) && Arrives(before, after)
    ensures Tracking(after, k) && LineOf(before) <= LineOf(after)
  {
    forall n: int
      ensures TracksAt(after.chunks, k.owned, n)
      ensures SpokenLine.Settled(before.chunks, n) ==> Lookup(after.chunks, n) == Lookup(before.chunks, n)
    {
      ArrivalTracks(before, after, k, size, n0, from, n);
    }
    LineGrows(before.chunks, after.chunks, FirstSequence(before.conversation));
  }

  lemma ArrivalOnline(cfg: Settings, before: Db, after: Db, done: seq<Speech>)
    requires Online(cfg, before, done) && Arrives(before, after)
    ensures Online(cfg, after, done)
  {
    var n0, from := OnlineOwns(cfg, before, done);
    ArrivalKeeps(before, after, CoreAfter(cfg, done), |done|, n0, from);
  }

  lemma FairPrefix(cfg: Settings, a: seq<Speech>, b: seq<Speech>)
    requires Fair(cfg, b) && a <= b
    ensures Fair(cfg, a)
  {
    Cut(b, |a|);
    StablePrefix(cfg, a, b[|a|..]);
  }

  // Every call of a run stores the windows of the whole line it finds.
  lemma {:induction false} RunOnline(cfg: Settings, pipeline: bool, states: seq<Db>)
    requires IsRun(cfg, pipeline, states) && Fair(cfg, LineOf(states[|states| - 1]))
    ensures var last := states[|states| - 1]; Online(cfg, Called(cfg, pipeline, last), LineOf(last))
    decreases |states|, 1
  {
    var n := |states| - 1;
    if n == 0 {
      UntouchedOnline(cfg, states[0]);
      CallOnline(cfg, pipeline, states[0], []);
    } else {
      RunFound(cfg, pipeline, states);
      CallOnline(cfg, pipeline, states[n], LineOf(states[n - 1]));
    }
  }

  lemma LineSurvives(cfg: Settings, pipeline: bool, before: Db, after: Db)
    requires Ordered(before.chunks) && Arrives(Called(cfg, pipeline, before), after)
    ensures LineOf(before) <= LineOf(after)
  {
    var called := Called(cfg, pipeline, before);
    CloseOrdered(cfg, before, false, pipeline, None, {});
    forall n: int
      ensures OnlyMarked(before.chunks, called.chunks, n)
      ensures SpokenLine.Settled(called.chunks, n) ==> Lookup(after.chunks, n) == Lookup(called.chunks, n)
    {
      CloseOnlyMarks(cfg, before, false, pipeline, None, {}, n);
      assert ArrivesAt(Lookup(called.chunks, n), Lookup(after.chunks, n));
    }
    SameLine(cfg, before, called);
    LineGrows(called.chunks, after.chunks, FirstSequence(called.conversation));
  }

  lemma RunStep(cfg: Settings, pipeline: bool, states: seq<Db>, i: nat)
    requires IsRun(cfg, pipeline, states) && i + 1 < |states|
    ensures Arrives(Called(cfg, pipeline, states[i]), states[i + 1])
  {
    var j := i + 1;
    assert Arrives(Called(cfg, pipeline, states[i]), states[j]);
  }

  lemma RunPrefix(cfg: Settings, pipeline: bool, states: seq<Db>, n: nat)
    requires IsRun(cfg, pipeline, states) && 0 < n <= |states|
    ensures IsRun(cfg, pipeline, states[..n])
  {
    forall i, j | 0 <= i && j == i + 1 < n
      ensures Arrives(Called(cfg, pipeline, states[..n][i]), states[..n][j])
    {
      RunStep(cfg, pipeline, states, i);
    }
  }

  lemma RunInit(cfg: Settings, pipeline: bool, states: seq<Db>)
    requires IsRun(cfg, pipeline, states) && |states| > 1
    ensures var n := |states| - 1;
            && IsRun(cfg, pipeline, states[..n]) && states[..n][n - 1] == states[n - 1]
            && Ordered(states[n - 1].chunks) && Arrives(Called(cfg, pipeline, states[n - 1]), states[n])
  {
    var n := |states| - 1;
    RunPrefix(cfg, pipeline, states, n);
    RunStep(cfg, pipeline, states, n - 1);
    if n > 1 {
      RunStep(cfg, pipeline, states, n - 2);
    }
  }

  // What the last call of a longer run finds.
  lemma {:induction false} RunFound(cfg: Settings, pipeline: bool, states: seq<Db>)
    requires IsRun(cfg, pipeline, states) && |states| > 1 && Fair(cfg, LineOf(states[|states| - 1]))
    ensures Online(cfg, states[|states| - 1], LineOf(states[|states| - 2]))
    decreases |states|, 0
  {
    var n := |states| - 1;
    RunInit(cfg, pipeline, states);
    LineSurvives(cfg, pipeline, states[n - 1], states[n]);
    FairPrefix(cfg, LineOf(states[n - 1]), LineOf(states[n]));
    RunOnline(cfg, pipeline, states[..n]);
    ArrivalOnline(cfg, Called(cfg, pipeline, states[n - 1]), states[n], LineOf(states[n - 1]));
  }

  // ----- against one call at the end

  function Reset(chunks: seq<Chunk>): seq<Chunk> {
    if chunks == [] then []
    else Reset(chunks[..|chunks| - 1]) + [chunks[|chunks| - 1].(processing := Unprocessed, windowId := None, exclusion := None)]
  }

  // The same transcripts, none of which has been put into a window.
  function Afresh(db: Db): Db {
    db.(windows := [], chunks := Reset(db.chunks))
  }

  lemma {:induction false} ResetLookup(chunks: seq<Chunk>, n: int)
    ensures Lookup(Reset(chunks), n) ==
            match Lookup(chunks, n)
            case None => None
            case Some(c) => Some(c.(processing := Unprocessed, windowId := None, exclusion := None))
  {
    if chunks != [] {
      var init, last := chunks[..|chunks| - 1], chunks[|chunks| - 1];
      ResetLookup(init, n);
      Snoc(Reset(init), last.(processing := Unprocessed, windowId := None, exclusion := None));
    }
  }

  lemma {:induction false} ResetOrdered(chunks: seq<Chunk>, limit: int)
    requires Ordered(chunks) && forall i :: 0 <= i < |chunks| ==> chunks[i].speech.sequence < limit
    ensures Ordered(Reset(chunks)) && forall i :: 0 <= i < |Reset(chunks)| ==> Reset(chunks)[i].speech.sequence < limit
  {
    if chunks != [] {
      ResetOrdered(chunks[..|chunks| - 1], chunks[|chunks| - 1].speech.sequence);
    }
  }

  lemma AfreshIsUntouched(db: Db)
    requires Ordered(db.chunks)
    ensures Untouched(Afresh(db)) && LineOf(Afresh(db)) == LineOf(db)
  {
    ResetOrdered(db.chunks, Top(db.chunks) + 1);
    forall n: int
      ensures Lookup(Reset(db.chunks), n).Some? ==> IsFresh(Lookup(Reset(db.chunks), n).value)
      ensures SameTranscript(db.chunks, Reset(db.chunks), n)
    {
      ResetLookup(db.chunks, n);
    }
    LineOfSame(db.chunks, Reset(db.chunks), FirstSequence(db.conversation));
  }

  predicate SameOwner(a: Option<Chunk>, b: Option<Chunk>) {
    match (a, b)
    case (Some(x), Some(y)) => x.windowId == y.windowId
    case (None, None) => true
    case _ => false
  }

  // What is observed: the stored windows, and the window of every number.
  ghost predicate SameWindows(a: Db, b: Db) {
    && |a.windows| == |b.windows|
    && (forall i :: 0 <= i < |a.windows| ==> SameDoc(a.windows[i].doc, b.windows[i].doc))
    && forall n :: SameOwner(Lookup(a.chunks, n), Lookup(b.chunks, n))
  }

  // Closing windows after every arrival gives the windows of a single call that
  // finds everything.
  lemma OnlineEqualsBatch(cfg: Settings, pipeline: bool, states: seq<Db>)
    requires IsRun(cfg, pipeline, states) && Fair(cfg, LineOf(states[|states| - 1]))
    ensures var last := states[|states| - 1]; SameWindows(Called(cfg, pipeline, last), Called(cfg, pipeline, Afresh(last)))
  {
    var last := states[|states| - 1];
    RunOnline(cfg, pipeline, states);
    LastOrdered(cfg, pipeline, states);
    AfreshIsUntouched(last);
    UntouchedOnline(cfg, Afresh(last));
    CallOnline(cfg, pipeline, Afresh(last), []);
    BothTrack(cfg, pipeline, last, LineOf(last));
  }

  lemma LastOrdered(cfg: Settings, pipeline: bool, states: seq<Db>)
    requires IsRun(cfg, pipeline, states)
    ensures Ordered(states[|states| - 1].chunks)
  {
    if |states| > 1 {
      RunInit(cfg, pipeline, states);
    }
  }

  lemma {:induction false} DocAt(windows: seq<StoredWindow>, i: nat)
    requires i < |windows|
    ensures Docs(windows)[i] == windows[i].doc
  {
    if i < |windows| - 1 {
      DocAt(windows[..|windows| - 1], i);
    }
  }

  lemma OwnersTrack(cfg: Settings, pipeline: bool, db: Db, line: seq<Speech>, n: int)
    requires Online(cfg, Called(cfg, pipeline, db), line) && Online(cfg, Called(cfg, pipeline, Afresh(db)), line)
    ensures SameOwner(Lookup(Called(cfg, pipeline, db).chunks, n), Lookup(Called(cfg, pipeline, Afresh(db)).chunks, n))
  {
    var owned := CoreAfter(cfg, line).owned;
    assert TracksAt(Called(cfg, pipeline, db).chunks, owned, n) && TracksAt(Called(cfg, pipeline, Afresh(db)).chunks, owned, n);
    CloseOnlyMarks(cfg, db, false, pipeline, None, {}, n);
    CloseOnlyMarks(cfg, Afresh(db), false, pipeline, None, {}, n);
    ResetLookup(db.chunks, n);
  }

  lemma BothTrack(cfg: Settings, pipeline: bool, db: Db, line: seq<Speech>)
    requires Online(cfg, Called(cfg, pipeline, db), line) && Online(cfg, Called(cfg, pipeline, Afresh(db)), line)
    ensures SameWindows(Called(cfg, pipeline, db), Called(cfg, pipeline, Afresh(db)))
  {
    var a, b := Called(cfg, pipeline, db), Called(cfg, pipeline, Afresh(db));
    forall i | 0 <= i < |a.windows|
      ensures i < |b.windows| && SameDoc(a.windows[i].doc, b.windows[i].doc)
    {
      SameRecorded(cfg, Docs(a.windows), Docs(b.windows), CoreAfter(cfg, line).lists, i);
      DocAt(a.windows, i);
      DocAt(b.windows, i);
    }
    forall n: int
      ensures SameOwner(Lookup(a.chunks, n), Lookup(b.chunks, n))
    {
      OwnersTrack(cfg, pipeline, db, line, n);
    }
  }
}

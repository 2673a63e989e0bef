// The stored windows stay in order: no call reopens a window or starts one
// before its predecessor.

module WindowOrder {
  import opened Seqs
  import opened Text
  import opened Models
  import opened Windowing
  import opened ChunkLists
  import opened WindowPartition
  import opened Store
  import opened Incremental
  import opened Lookups
  import opened ForcedClose

  predicate Spans(w: Window) {
    && w.sequenceStart <= w.sequenceEnd
    && (w.overlapStart.Some? ==> w.sequenceStart <= w.overlapStart.value <= w.sequenceEnd)
  }

  predicate Follows(v: Window, w: Window) {
    v.sequenceStart <= w.sequenceStart && v.sequenceEnd < w.sequenceEnd
  }

  predicate InOrder(docs: seq<Window>) {
    docs != [] ==>
      var n := |docs| - 1;
      InOrder(docs[..n]) && Spans(docs[n]) && (n > 0 ==> Follows(docs[n - 1], docs[n]))
  }

  function Docs(windows: seq<StoredWindow>): (r: seq<Window>)
    ensures |r| == |windows|
  {
    if windows == [] then [] else Docs(windows[..|windows| - 1]) + [windows[|windows| - 1].doc]
  }

  function Windows(built: seq<Built>): (r: seq<Window>)
    ensures |r| == |built|
  {
    if built == [] then [] else Windows(built[..|built| - 1]) + [built[|built| - 1].window]
  }

  lemma {:induction false} InOrderConcat(a: seq<Window>, b: seq<Window>)
    requires InOrder(a) && InOrder(b) && (a != [] && b != [] ==> Follows(a[|a| - 1], b[0]))
    ensures InOrder(a + b)
  {
    if b == [] {
      EmptyRight(a);
    } else {
      InOrderConcat(a, b[..|b| - 1]);
      InitOfConcat(a, b);
    }
  }

  lemma {:induction false} LastIsLast(windows: seq<StoredWindow>)
    requires windows != [] && InOrder(Docs(windows))
    ensures LastWindow(windows) == windows[|windows| - 1]
  {
    if |windows| > 1 {
      var init := windows[..|windows| - 1];
      Snoc(Docs(init), windows[|windows| - 1].doc);
      LastIsLast(init);
    }
  }

  lemma {:induction false} EndsBefore(windows: seq<StoredWindow>, end: int, n: int)
    requires InOrder(Docs(windows)) && (windows != [] ==> windows[|windows| - 1].doc.sequenceEnd < end)
    ensures forall i :: 0 <= i < |windows| ==> windows[i].doc.sequenceEnd < end
    ensures n in CoveredNumbers(windows) ==> n < end
  {
    if windows != [] {
      var init := windows[..|windows| - 1];
      Snoc(Docs(init), windows[|windows| - 1].doc);
      EndsBefore(init, end, n);
    }
  }

  // ----- the windows one call builds

  lemma {:induction false} LastOfUseful(segment: seq<Speech>, low: int)
    requires Useful(segment) != [] && Ascending(segment) && From(segment, low)
    ensures Ascending(Useful(segment)) && From(Useful(segment), low)
    ensures var u := Useful(segment); u[|u| - 1].sequence <= segment[|segment| - 1].sequence
  {
    UsefulAscends(segment);
    UsefulWithin(segment, low, segment[|segment| - 1].sequence + 1);
  }

  lemma JoinAscends(a: seq<Speech>, b: seq<Speech>, n: int)
    requires Ascending(a) && Ascending(b) && Below(a, n) && From(b, n)
    ensures Ascending(a + b)
  {
  }

  // A list that ends with the chunks of one more segment.
  lemma SplitAscends(all: seq<Speech>, a: seq<Speech>, b: seq<Speech>, low: int, next: int)
    requires all == a + b && b != [] && Ascending(all) && From(all, low) && Below(all, next)
    ensures Ascending(a) && From(a, low) && Below(a, b[0].sequence)
    ensures Ascending(b) && From(b, b[0].sequence) && low <= b[0].sequence && b[|b| - 1].sequence < next
  {
    assert all[|a|] == b[0] && all[|all| - 1] == b[|b| - 1];
    forall i | 0 <= i < |a|
      ensures all[i] == a[i]
    {
    }
    forall i | 0 <= i < |b|
      ensures all[|a| + i] == b[i]
    {
    }
  }

  // What the record of a window says of the chunks it holds.
  predicate Marks(cfg: Settings, w: Window, all: seq<Speech>) {
    && all != [] && w.sequenceStart == all[0].sequence && w.sequenceEnd == all[|all| - 1].sequence
    && var handed := Handed(cfg, w.isFinalPartial, all);
    w.overlapStart == if handed == [] then None else Some(handed[0].sequence)
  }

  lemma WindowMarks(cfg: Settings, b: Built, overlap: seq<Speech>, segment: seq<Speech>, index: nat)
    requires WindowOk(cfg, b, overlap, segment, index)
    ensures Marks(cfg, b.window, overlap + Useful(segment)) && Useful(segment) != []
  {
  }

  lemma SuffixFits(all: seq<Speech>, k: nat)
    requires all != [] && Ascending(all) && k <= |all|
    ensures Ascending(all[k..]) && From(all[k..], all[0].sequence) && Below(all[k..], all[|all| - 1].sequence + 1)
  {
  }

  lemma MarksSpan(cfg: Settings, w: Window, all: seq<Speech>)
    requires Marks(cfg, w, all) && Ascending(all)
    ensures Spans(w)
    ensures var handed := Handed(cfg, w.isFinalPartial, all);
            Ascending(handed) && From(handed, w.sequenceStart) && Below(handed, w.sequenceEnd + 1)
  {
    TailIsSuffix(cfg, w.isFinalPartial, all);
    SuffixFits(all, |all| - |Handed(cfg, w.isFinalPartial, all)|);
  }

  lemma JoinedEnds(overlap: seq<Speech>, mine: seq<Speech>, low: int, floor: int)
    requires mine != [] && Ascending(overlap) && From(overlap, low) && Below(overlap, floor) && low <= floor
    requires Ascending(mine) && From(mine, floor)
    ensures var all := overlap + mine;
            && Ascending(all) && low <= all[0].sequence && floor <= all[|all| - 1].sequence
            && all[|all| - 1] == mine[|mine| - 1]
  {
    JoinAscends(overlap, mine, floor);
  }

  // The window of one segment, after an overlap that lies before it.
  lemma WindowSpans(cfg: Settings, b: Built, overlap: seq<Speech>, segment: seq<Speech>, index: nat, low: int, floor: int)
    requires WindowOk(cfg, b, overlap, segment, index)
    requires Ascending(overlap) && From(overlap, low) && Below(overlap, floor) && low <= floor
    requires Ascending(segment) && From(segment, floor)
    ensures Spans(b.window) && low <= b.window.sequenceStart && floor <= b.window.sequenceEnd
    ensures b.window.sequenceEnd <= segment[|segment| - 1].sequence
    ensures var handed := Handed(cfg, b.window.isFinalPartial, overlap + Useful(segment));
            && Ascending(handed) && From(handed, b.window.sequenceStart) && Below(handed, b.window.sequenceEnd + 1)
  {
    WindowMarks(cfg, b, overlap, segment, index);
    LastOfUseful(segment, floor);
    JoinedEnds(overlap, Useful(segment), low, floor);
    MarksSpan(cfg, b.window, overlap + Useful(segment));
  }

  predicate LastEndsBelow(built: seq<Built>, next: int) {
    built != [] ==> built[|built| - 1].window.sequenceEnd < next
  }

  function LastStart(built: seq<Built>, low: int): int {
    if built == [] then low else built[|built| - 1].window.sequenceStart
  }

  predicate OverlapFits(overlap: seq<Speech>, low: int, next: int) {
    Ascending(overlap) && From(overlap, low) && Below(overlap, next)
  }

  // The windows so far: in order, from `low` and `floor` on, and before `next`.
  predicate Placed(built: seq<Built>, low: int, floor: int, next: int) {
    && InOrder(Windows(built)) && LastEndsBelow(built, next)
    && (built != [] ==> low <= built[0].window.sequenceStart && floor <= built[0].window.sequenceEnd)
  }

  lemma {:induction false} ChainedInOrder(cfg: Settings, built: seq<Built>, first: seq<Speech>, startIndex: nat,
                                          segments: seq<seq<Speech>>, low: int, floor: int, next: int)
    requires Chained(cfg, built, first, startIndex, segments)
    requires OverlapFits(first, low, floor) && low <= floor <= next
    requires Ascending(Flatten(segments)) && From(Flatten(segments), floor) && Below(Flatten(segments), next)
    ensures Placed(built, low, floor, next)
    ensures OverlapFits(OverlapAfter(cfg, built, first, segments), LastStart(built, low), next)
  {
    if built == [] {
      SpansWiden(first, low, floor - 1, next);
    } else {
      var n := |built| - 1;
      ChainedNonempty(cfg, built, first, startIndex, segments);
      FlattenUnfolds(segments);
      SplitAscends(Flatten(segments), Flatten(segments[..n]), segments[n], floor, next);
      ChainedInOrder(cfg, built[..n], first, startIndex, segments[..n], low, floor, segments[n][0].sequence);
      ChainedStep(cfg, built, first, startIndex, segments, low, floor, segments[n][0].sequence, next);
    }
  }

  lemma ChainedStep(cfg: Settings, built: seq<Built>, first: seq<Speech>, startIndex: nat, segments: seq<seq<Speech>>,
                    low: int, floor: int, mid: int, next: int)
    requires |built| == |segments| && built != [] && low <= floor <= mid
    requires var n := |built| - 1;
             && WindowOk(cfg, built[n], OverlapAfter(cfg, built[..n], first, segments[..n]), segments[n], startIndex + n)
             && Placed(built[..n], low, floor, mid)
             && OverlapFits(OverlapAfter(cfg, built[..n], first, segments[..n]), LastStart(built[..n], low), mid)
             && Ascending(segments[n]) && From(segments[n], mid)
             && segments[n] != [] && segments[n][|segments[n]| - 1].sequence < next
    ensures Placed(built, low, floor, next)
    ensures OverlapFits(OverlapAfter(cfg, built, first, segments), LastStart(built, low), next)
  {
    var n := |built| - 1;
    NextInOrder(cfg, built, OverlapAfter(cfg, built[..n], first, segments[..n]), segments[n], startIndex + n, low, floor, mid, next);
    OverlapUnfolds(cfg, built, first, segments);
  }

  lemma FlattenUnfolds(segments: seq<seq<Speech>>)
    requires segments != []
    ensures Flatten(segments) == Flatten(segments[..|segments| - 1]) + segments[|segments| - 1]
  {
  }

  lemma OverlapUnfolds(cfg: Settings, built: seq<Built>, first: seq<Speech>, segments: seq<seq<Speech>>)
    requires |built| == |segments| && built != []
    ensures var n := |built| - 1;
            OverlapAfter(cfg, built, first, segments) ==
            Handed(cfg, built[n].window.isFinalPartial, OverlapAfter(cfg, built[..n], first, segments[..n]) + Useful(segments[n]))
  {
  }

  lemma ChainedNonempty(cfg: Settings, built: seq<Built>, first: seq<Speech>, startIndex: nat, segments: seq<seq<Speech>>)
    requires Chained(cfg, built, first, startIndex, segments) && built != []
    ensures var n := |built| - 1;
            && |segments| == n + 1 && segments[n] != []
            && Chained(cfg, built[..n], first, startIndex, segments[..n])
            && WindowOk(cfg, built[n], OverlapAfter(cfg, built[..n], first, segments[..n]), segments[n], startIndex + n)
  {
  }

  lemma SpansWiden(overlap: seq<Speech>, low: int, end: int, limit: int)
    requires OverlapFits(overlap, low, end + 1) && end < limit
    ensures OverlapFits(overlap, low, limit)
  {
  }

  lemma PlacedSnoc(built: seq<Built>, low: int, floor: int, next: int, limit: int)
    requires built != [] && Placed(built[..|built| - 1], low, floor, next) && floor <= next
    requires var b := built[|built| - 1];
             && Spans(b.window) && LastStart(built[..|built| - 1], low) <= b.window.sequenceStart
             && next <= b.window.sequenceEnd < limit
    ensures Placed(built, low, floor, limit)
  {
    var init, b := built[..|built| - 1], built[|built| - 1];
    Snoc(Windows(init), b.window);
    LastWindowDoc(init);
  }

  // One more window, whose segment starts at `next` and ends before `limit`.
  lemma NextInOrder(cfg: Settings, built: seq<Built>, overlap: seq<Speech>, segment: seq<Speech>, index: nat, low: int, floor: int,
                    next: int, limit: int)
    requires built != [] && WindowOk(cfg, built[|built| - 1], overlap, segment, index)
    requires var init := built[..|built| - 1];
             Placed(init, low, floor, next) && low <= floor <= next && OverlapFits(overlap, LastStart(init, low), next)
    requires Ascending(segment) && From(segment, next) && segment != [] && segment[|segment| - 1].sequence < limit
    ensures Placed(built, low, floor, limit)
    ensures var w := built[|built| - 1].window;
            OverlapFits(Handed(cfg, w.isFinalPartial, overlap + Useful(segment)), w.sequenceStart, limit)
  {
    var init, b := built[..|built| - 1], built[|built| - 1];
    LastStartBelow(init, low, next);
    WindowSpans(cfg, b, overlap, segment, index, LastStart(init, low), next);
    PlacedSnoc(built, low, floor, next, limit);
    SpansWiden(Handed(cfg, b.window.isFinalPartial, overlap + Useful(segment)), b.window.sequenceStart, b.window.sequenceEnd, limit);
  }

  lemma LastWindowDoc(built: seq<Built>)
    ensures built != [] ==> Windows(built)[|built| - 1] == built[|built| - 1].window
  {
  }

  lemma LastStartBelow(built: seq<Built>, low: int, next: int)
    requires InOrder(Windows(built)) && LastEndsBelow(built, next) && low <= next
    ensures LastStart(built, low) <= next
  {
    LastWindowDoc(built);
  }

  // ----- storing them

  lemma InOrderInit(docs: seq<Window>, w: Window)
    requires InOrder(docs + [w])
    ensures InOrder(docs) && Spans(w) && (docs != [] ==> Follows(docs[|docs| - 1], w))
  {
    Snoc(docs, w);
  }

  function NewlyStored(b: Built, deferred: bool): StoredWindow {
    Dispatched(NewStoredWindow(b.window), b.window.isFinalPartial || b.window.closeReason.ForcedFinal? || deferred)
  }

  // A window that ends after all stored ones is new.
  lemma {:induction false} NotFound(windows: seq<StoredWindow>, start: nat, end: nat)
    requires forall i :: 0 <= i < |windows| ==> windows[i].doc.sequenceEnd < end
    ensures FindWindow(windows, start, end) == None
  {
    if windows != [] {
      NotFound(windows[..|windows| - 1], start, end);
    }
  }

  lemma LastStoredDoc(windows: seq<StoredWindow>)
    requires windows != []
    ensures Docs(windows)[|windows| - 1] == windows[|windows| - 1].doc
  {
    Snoc(Docs(windows[..|windows| - 1]), windows[|windows| - 1].doc);
  }

  lemma StoredNew(windows: seq<StoredWindow>, b: Built, deferred: bool)
    requires FindWindow(windows, b.window.sequenceStart, b.window.sequenceEnd) == None
    ensures Stored(windows, b, deferred) == (windows + [NewlyStored(b, deferred)], |windows|)
  {
  }

  lemma NewInOrder(windows: seq<StoredWindow>, w: Window)
    requires InOrder(Docs(windows) + [w])
    ensures FindWindow(windows, w.sequenceStart, w.sequenceEnd) == None
  {
    InOrderInit(Docs(windows), w);
    if windows != [] {
      LastStoredDoc(windows);
    }
    EndsBefore(windows, w.sequenceEnd, 0);
    NotFound(windows, w.sequenceStart, w.sequenceEnd);
  }

  lemma StoredAppends(windows: seq<StoredWindow>, b: Built, deferred: bool)
    requires InOrder(Docs(windows) + [b.window])
    ensures Stored(windows, b, deferred) == (windows + [NewlyStored(b, deferred)], |windows|)
  {
    NewInOrder(windows, b.window);
    StoredNew(windows, b, deferred);
  }

  lemma CreateOneAppends(db: Db, b: Built, deferred: bool)
    requires InOrder(Docs(db.windows) + [b.window])
    ensures db.windows <= CreateWindow(db, b, deferred).windows
    ensures Docs(CreateWindow(db, b, deferred).windows) == Docs(db.windows) + [b.window]
  {
    StoredAppends(db.windows, b, deferred);
    DocsSnoc(db.windows, NewlyStored(b, deferred));
  }

  lemma {:induction false} CreatedAppends(db: Db, built: seq<Built>, deferred: bool)
    requires InOrder(Docs(db.windows) + Windows(built))
    ensures db.windows <= CreateWindows(db, built, deferred).windows
    ensures Docs(CreateWindows(db, built, deferred).windows) == Docs(db.windows) + Windows(built)
  {
    if built == [] {
      EmptyRight(Docs(db.windows));
    } else {
      var init, w := built[..|built| - 1], built[|built| - 1].window;
      Assoc(Docs(db.windows), Windows(init), [w]);
      InOrderInit(Docs(db.windows) + Windows(init), w);
      CreatedAppends(db, init, deferred);
      CreateOneAppends(CreateWindows(db, init, deferred), built[|built| - 1], deferred);
      PrefixTwice(db.windows, CreateWindows(db, init, deferred).windows, CreateWindows(db, built, deferred).windows);
    }
  }

  lemma PrefixTwice<T>(a: seq<T>, b: seq<T>, c: seq<T>)
    requires a <= b && b <= c
    ensures a <= c
  {
  }

  lemma DocsSnoc(windows: seq<StoredWindow>, w: StoredWindow)
    ensures Docs(windows + [w]) == Docs(windows) + [w.doc]
  {
    Snoc(windows, w);
  }

  // ----- a call on stored windows that are in order

  lemma LastDoc(windows: seq<StoredWindow>)
    requires windows != [] && InOrder(Docs(windows))
    ensures Docs(windows)[|windows| - 1] == LastWindow(windows).doc && Spans(LastWindow(windows).doc)
  {
    LastIsLast(windows);
    LastStoredDoc(windows);
  }

  function StartsFrom(db: Db): nat {
    if db.windows == [] then 0 else LastWindow(db.windows).doc.sequenceStart
  }

  lemma OverlapOrdered(db: Db)
    requires Ordered(db.chunks) && InOrder(Docs(db.windows))
    ensures OverlapFits(Overlap(OverlapPrefix(db)), StartsFrom(db), ExpectedStart(db)) && StartsFrom(db) <= ExpectedStart(db)
  {
    OverlapBelow(db);
    OrderedUniqueAscends(OverlapPrefix(db));
    UsefulAscends(OrderedUnique(OverlapPrefix(db)));
    if db.windows != [] {
      LastDoc(db.windows);
      OverlapFrom(db, StartsFrom(db));
    }
  }

  lemma {:induction false} BetweenFrom(chunks: seq<Chunk>, start: nat, end: nat)
    ensures From(CompletedBetween(chunks, start, end), start)
  {
    if chunks != [] {
      BetweenFrom(chunks[..|chunks| - 1], start, end);
    }
  }

  lemma OverlapFrom(db: Db, low: nat)
    requires db.windows != [] && Spans(LastWindow(db.windows).doc) && low == LastWindow(db.windows).doc.sequenceStart
    ensures From(Overlap(OverlapPrefix(db)), low)
  {
    var prefix, doc := OverlapPrefix(db), LastWindow(db.windows).doc;
    if doc.overlapStart.Some? {
      BetweenFrom(db.chunks, doc.overlapStart.value, doc.sequenceEnd);
    }
    OrderedUniqueAscends(prefix);
    UsefulOnly(OrderedUnique(prefix));
    var overlap := Overlap(prefix);
    forall i | 0 <= i < |overlap|
      ensures low <= overlap[i].sequence
    {
      assert overlap[i] in prefix;
    }
  }

  lemma BoundOf(list: seq<Speech>, low: int) returns (next: int)
    requires Ascending(list) && From(list, low)
    ensures low <= next && Below(list, next)
  {
    next := if list == [] then low else list[|list| - 1].sequence + 1;
  }

  lemma PrefixAscends(a: seq<Speech>, b: seq<Speech>, low: int)
    requires a <= b && Ascending(b) && From(b, low)
    ensures Ascending(a) && From(a, low)
  {
  }

  // The windows of one call, in order among themselves ...
  lemma BuildInOrder(cfg: Settings, list: seq<Speech>, index: nat, force: bool, prefix: seq<Speech>, skippable: set<int>,
                     low: nat, start: nat)
    requires OverlapFits(Overlap(prefix), low, start) && low <= start && From(list, start)
    ensures var built := Build(cfg, list, index, force, prefix, skippable);
            && InOrder(Windows(built))
            && (built != [] ==> low <= built[0].window.sequenceStart && start <= built[0].window.sequenceEnd)
  {
    ReachableAscends(list, skippable);
    ReachableFrom(list, skippable, start);
    var segments := BuildPartitions(cfg, list, index, force, prefix, skippable, start);
    var flat := Flatten(segments);
    PrefixAscends(flat, Reachable(list, skippable), start);
    var next := BoundOf(flat, start);
    ChainedInOrder(cfg, Build(cfg, list, index, force, prefix, skippable), Overlap(prefix), index, segments, low, start, next);
  }

  // ... and after the stored ones.
  lemma BuiltInOrder(cfg: Settings, db: Db, list: seq<Speech>, force: bool, skippable: set<int>)
    requires Ordered(db.chunks) && InOrder(Docs(db.windows)) && From(list, ExpectedStart(db))
    ensures InOrder(Docs(db.windows) + Windows(Build(cfg, list, |db.windows|, force, OverlapPrefix(db), skippable)))
  {
    var built := Build(cfg, list, |db.windows|, force, OverlapPrefix(db), skippable);
    OverlapOrdered(db);
    BuildInOrder(cfg, list, |db.windows|, force, OverlapPrefix(db), skippable, StartsFrom(db), ExpectedStart(db));
    if built != [] && db.windows != [] {
      LastDoc(db.windows);
      FirstDoc(built);
    }
    InOrderConcat(Docs(db.windows), Windows(built));
  }

  lemma {:induction false} FirstDoc(built: seq<Built>)
    requires built != []
    ensures Windows(built)[0] == built[0].window
  {
    if |built| > 1 {
      FirstDoc(built[..|built| - 1]);
    }
  }

  lemma {:induction false} ExcludedOrdered(chunks: seq<Chunk>, numbers: set<int>, reason: ExclusionReason)
    requires Ordered(chunks)
    ensures Ordered(Excluded(chunks, numbers, reason))
  {
    forall i, j | 0 <= i < j < |chunks|
      ensures Excluded(chunks, numbers, reason)[i].speech.sequence < Excluded(chunks, numbers, reason)[j].speech.sequence
    {
      ExcludedAt(chunks, numbers, reason, i);
      ExcludedAt(chunks, numbers, reason, j);
    }
  }

  lemma {:induction false} ClaimedOrdered(chunks: seq<Chunk>, numbers: set<int>, id: nat)
    requires Ordered(chunks)
    ensures Ordered(Claimed(chunks, numbers, id))
  {
    forall i, j | 0 <= i < j < |chunks|
      ensures Claimed(chunks, numbers, id)[i].speech.sequence < Claimed(chunks, numbers, id)[j].speech.sequence
    {
      ClaimedAt(chunks, numbers, id, i);
      ClaimedAt(chunks, numbers, id, j);
    }
  }

  lemma {:induction false} CreatedOrdered(db: Db, built: seq<Built>, deferred: bool)
    requires Ordered(db.chunks)
    ensures Ordered(CreateWindows(db, built, deferred).chunks)
  {
    if built != [] {
      var earlier, b := CreateWindows(db, built[..|built| - 1], deferred), built[|built| - 1];
      CreatedOrdered(db, built[..|built| - 1], deferred);
      var id := Stored(earlier.windows, b, deferred).1;
      ClaimedOrdered(earlier.chunks, Numbers(b.owned), id);
      ExcludedOrdered(Claimed(earlier.chunks, Numbers(b.owned), id), Numbers(b.skipped), EmptyTranscript);
    }
  }

  lemma MarkedOrdered(db: Db, plan: Plan, through: Option<int>)
    requires Ordered(db.chunks)
    ensures Ordered(Prepared(db, plan, through).chunks)
    ensures Ordered(HoleMarked(db, plan, Rest(plan)).chunks)
  {
    var failed := FailedNumbers(UpTo(db.chunks, through), plan.start, plan.skippable);
    ExcludedOrdered(db.chunks, failed, SttFailure);
    ExcludedOrdered(Excluded(db.chunks, failed, SttFailure), Leading(plan), EmptyTranscript);
    var hole := Hole(plan.start, Rest(plan));
    ExcludedOrdered(db.chunks, hole - plan.present, SequenceMissing);
    ExcludedOrdered(Excluded(db.chunks, hole - plan.present, SequenceMissing), hole * plan.present, SttFailure);
  }

  lemma WindowedInOrder(cfg: Settings, ready: Db, plan: Plan, force: bool, pipeline: bool)
    requires Ordered(ready.chunks) && InOrder(Docs(ready.windows))
    requires From(Rest(plan), ExpectedStart(ready))
    ensures var after := Windowed(cfg, ready, plan, force, pipeline);
            && Ordered(after.chunks) && InOrder(Docs(after.windows)) && ready.windows <= after.windows
            && Docs(after.windows) == Docs(ready.windows) + Windows(BuiltFrom(cfg, ready, plan, force))
  {
    var deferred := force && (pipeline || ready.conversation.isExtension);
    var built := BuiltFrom(cfg, ready, plan, force);
    BuiltInOrder(cfg, ready, Rest(plan), force, SkippableNow(plan, Rest(plan), force));
    CreatedAppends(ready, built, deferred);
    CreatedOrdered(ready, built, deferred);
    ExcludedOrdered(CreateWindows(ready, built, deferred).chunks, EmptyNumbers(Rest(plan)), EmptyTranscript);
  }

  lemma ReadyInOrder(db: Db, through: Option<int>, extra: set<int>)
    requires Ordered(db.chunks) && InOrder(Docs(db.windows))
    ensures var plan := MakePlan(db, through, extra);
            var ready := HoleMarked(Prepared(db, plan, through), plan, Rest(plan));
            && Ordered(Prepared(db, plan, through).chunks)
            && Ordered(ready.chunks) && ready.windows == db.windows && From(Rest(plan), ExpectedStart(ready))
  {
    var plan := MakePlan(db, through, extra);
    MarkedOrdered(db, plan, through);
    MarkedOrdered(Prepared(db, plan, through), plan, through);
    LeadingFacts(db, through, extra, 0);
  }

  // A call keeps every stored window as it is and puts its own after them.
  lemma CloseKeepsOrder(cfg: Settings, db: Db, force: bool, pipeline: bool, through: Option<int>, extra: set<int>)
    requires Ordered(db.chunks) && InOrder(Docs(db.windows))
    ensures var after := Close(cfg, db, force, pipeline, through, extra);
            Ordered(after.chunks) && InOrder(Docs(after.windows)) && db.windows <= after.windows
  {
    var plan := MakePlan(db, through, extra);
    ReadyInOrder(db, through, extra);
    WindowedInOrder(cfg, HoleMarked(Prepared(db, plan, through), plan, Rest(plan)), plan, force, pipeline);
    CloseCases(cfg, db, force, pipeline, through, extra);
  }

  lemma {:induction false} ConversationStays(db: Db, built: seq<Built>, deferred: bool)
    ensures CreateWindows(db, built, deferred).conversation == db.conversation
  {
    if built != [] {
      ConversationStays(db, built[..|built| - 1], deferred);
    }
  }

  lemma WindowedOrdered(cfg: Settings, ready: Db, plan: Plan, force: bool, pipeline: bool)
    requires Ordered(ready.chunks)
    ensures var after := Windowed(cfg, ready, plan, force, pipeline);
            Ordered(after.chunks) && after.conversation == ready.conversation
  {
    var deferred := force && (pipeline || ready.conversation.isExtension);
    var built := BuiltFrom(cfg, ready, plan, force);
    CreatedOrdered(ready, built, deferred);
    ConversationStays(ready, built, deferred);
    ExcludedOrdered(CreateWindows(ready, built, deferred).chunks, EmptyNumbers(Rest(plan)), EmptyTranscript);
  }

  lemma CloseOrdered(cfg: Settings, db: Db, force: bool, pipeline: bool, through: Option<int>, extra: set<int>)
    requires Ordered(db.chunks)
    ensures var after := Close(cfg, db, force, pipeline, through, extra);
            Ordered(after.chunks) && after.conversation == db.conversation
  {
    var plan := MakePlan(db, through, extra);
    MarkedOrdered(db, plan, through);
    MarkedOrdered(Prepared(db, plan, through), plan, through);
    WindowedOrdered(cfg, HoleMarked(Prepared(db, plan, through), plan, Rest(plan)), plan, force, pipeline);
    CloseCases(cfg, db, force, pipeline, through, extra);
  }

  // With the windows in order, a chunk behind none of them is not covered.
  lemma NotCovered(db: Db, through: Option<int>, n: int)
    requires Ordered(db.chunks) && InOrder(Docs(db.windows)) && Waiting(db, through, n) && ExpectedStart(db) <= n
    ensures !AlreadyCovered(db, true, through)
  {
    var limit := if db.chunks == [] then 0 else db.chunks[|db.chunks| - 1].speech.sequence + 1;
    LookupNumber(db.chunks, n);
    UpToOrdered(db.chunks, through, limit);
    UpToLookup(db.chunks, through, n);
    UsefulNumbersLookup(UpTo(db.chunks, through), n);
    if db.windows != [] {
      LastIsLast(db.windows);
    }
    EndsBefore(db.windows, n, n);
  }
}

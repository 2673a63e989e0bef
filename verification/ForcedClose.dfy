// Which waiting chunks a final close takes into windows, number by number.

module ForcedClose {
  import opened Seqs
  import opened Text
  import opened Models
  import opened Windowing
  import opened ChunkLists
  import opened WindowPartition
  import opened Store
  import opened Incremental
  import opened Lookups

  // A useful chunk that no window has taken, counted by `count_unwindowed_non_empty_transcripts`.
  predicate Waits(c: Chunk, through: Option<int>) {
    IsUnwindowed(c) && IsUseful(c.speech) && (through.None? || c.speech.sequence <= through.value)
  }

  predicate Waiting(db: Db, through: Option<int>, n: int) {
    var found := Lookup(db.chunks, n);
    found.Some? && Waits(found.value, through)
  }

  // ----- numbers listed by the windows

  function OwnedSet(built: seq<Built>): set<int> {
    if built == [] then {} else OwnedSet(built[..|built| - 1]) + Numbers(built[|built| - 1].owned)
  }

  function SkippedSet(built: seq<Built>): set<int> {
    if built == [] then {} else SkippedSet(built[..|built| - 1]) + Numbers(built[|built| - 1].skipped)
  }

  lemma {:induction false} FindConcat(a: seq<Speech>, b: seq<Speech>, n: int)
    ensures Find(a + b, n) == if Find(b, n).Some? then Find(b, n) else Find(a, n)
  {
    if b == [] {
      EmptyRight(a);
    } else {
      FindConcat(a, b[..|b| - 1], n);
      InitOfConcat(a, b);
    }
  }

  lemma WindowNumbers(cfg: Settings, b: Built, overlap: seq<Speech>, segment: seq<Speech>, index: nat, n: int)
    requires WindowOk(cfg, b, overlap, segment, index)
    ensures n in Numbers(b.owned) <==> Find(Useful(segment), n).Some?
    ensures n in Numbers(b.skipped) <==> Find(Empties(segment), n).Some?
  {
    NumbersFind(Useful(segment), n);
    NumbersFind(Empties(segment), n);
  }

  lemma {:induction false} ListedNumbers(cfg: Settings, built: seq<Built>, first: seq<Speech>, startIndex: nat,
                                         segments: seq<seq<Speech>>, n: int)
    requires Chained(cfg, built, first, startIndex, segments)
    ensures n in OwnedSet(built) <==> Find(Useful(Flatten(segments)), n).Some?
    ensures n in SkippedSet(built) <==> Find(Empties(Flatten(segments)), n).Some?
  {
    if built != [] {
      var k := |built| - 1;
      ListedNumbers(cfg, built[..k], first, startIndex, segments[..k], n);
      WindowNumbers(cfg, built[k], OverlapAfter(cfg, built[..k], first, segments[..k]), segments[k], startIndex + k, n);
      UsefulConcat(Flatten(segments[..k]), segments[k]);
      EmptiesConcat(Flatten(segments[..k]), segments[k]);
      FindConcat(Useful(Flatten(segments[..k])), Useful(segments[k]), n);
      FindConcat(Empties(Flatten(segments[..k])), Empties(segments[k]), n);
    }
  }

  // ----- what storing the windows does to one chunk

  lemma {:induction false} CreatedLookup(db: Db, built: seq<Built>, deferred: bool, n: int)
    ensures var before, after := Lookup(db.chunks, n), Lookup(CreateWindows(db, built, deferred).chunks, n);
            && (before.None? <==> after.None?)
            && (before.Some? && (!before.value.processing.Unprocessed? || n !in OwnedSet(built) + SkippedSet(built)) ==>
                  after == before)
            && (before.Some? && n in OwnedSet(built) ==> !after.value.processing.Unprocessed?)
  {
    if built != [] {
      var k := |built| - 1;
      var earlier := CreateWindows(db, built[..k], deferred);
      CreatedLookup(db, built[..k], deferred, n);
      CreateOneLookup(earlier, built[k], deferred, n);
    }
  }

  lemma CreateOneLookup(db: Db, b: Built, deferred: bool, n: int)
    ensures var before, after := Lookup(db.chunks, n), Lookup(CreateWindow(db, b, deferred).chunks, n);
            && (before.None? <==> after.None?)
            && (before.Some? && (!before.value.processing.Unprocessed? || n !in Numbers(b.owned) + Numbers(b.skipped)) ==>
                  after == before)
            && (before.Some? && n in Numbers(b.owned) ==> !after.value.processing.Unprocessed?)
  {
    var stored := Stored(db.windows, b, deferred);
    ClaimedLookup(db.chunks, Numbers(b.owned), stored.1, n);
    ExcludedLookup(Claimed(db.chunks, Numbers(b.owned), stored.1), Numbers(b.skipped), EmptyTranscript, n);
    if Lookup(db.chunks, n).Some? {
      LookupNumber(db.chunks, n);
    }
  }

  // ----- the plan of a call

  lemma PlanFacts(db: Db, through: Option<int>, extra: set<int>, n: int)
    requires Ordered(db.chunks)
    ensures var plan := MakePlan(db, through, extra);
            var found := if through.None? || n <= through.value then Lookup(db.chunks, n) else None;
            && Ascending(plan.waiting) && From(plan.waiting, plan.start)
            && (n in plan.skippable <==> n in extra || (found.Some? && IsSkippable(found.value)))
            && (n in plan.present <==> found.Some?)
            && (Find(plan.waiting, n).Some? <==> found.Some? && IsUnwindowed(found.value) && n >= plan.start)
            && (Find(plan.waiting, n).Some? ==> Find(plan.waiting, n).value == found.value.speech)
  {
    var all := UpTo(db.chunks, through);
    var limit := if db.chunks == [] then 0 else db.chunks[|db.chunks| - 1].speech.sequence + 1;
    UpToOrdered(db.chunks, through, limit);
    UpToLookup(db.chunks, through, n);
    SkippableLookup(all, n);
    PresentLookup(all, n);
    UnwindowedFind(all, ExpectedStart(db), n);
    UnwindowedAscends(all, ExpectedStart(db), limit);
  }

  lemma {:induction false} LeadingAreEmpty(reach: seq<Speech>, n: int)
    requires n in Numbers(LeadingEmpties(reach)) && Ascending(reach)
    ensures Find(reach, n).Some? && !IsUseful(Find(reach, n).value)
  {
    var rest := reach[1..];
    NumbersPrepend(reach[0].sequence, LeadingEmpties(rest), n);
    assert reach == [reach[0]] + rest;
    FindPrepend(reach[0], rest, n);
    if n in Numbers(LeadingEmpties(rest)) {
      LeadingAreEmpty(rest, n);
    } else {
      FindAbove(rest, n);
    }
  }

  lemma {:induction false} NumbersPrepend(x: nat, list: seq<nat>, n: int)
    ensures n in Numbers([x] + list) <==> n == x || n in Numbers(list)
  {
    if list == [] {
      EmptyRight([x]);
    } else {
      NumbersPrepend(x, list[..|list| - 1], n);
      InitOfConcat([x], list);
    }
  }

  // Leading chunks are empty, so they may be skipped, and no useful chunk leads.
  lemma LeadingFacts(db: Db, through: Option<int>, extra: set<int>, n: int)
    requires Ordered(db.chunks)
    ensures var plan := MakePlan(db, through, extra);
            && (n in Leading(plan) ==> n in plan.skippable && Find(plan.waiting, n).Some? && !IsUseful(Find(plan.waiting, n).value))
            && Find(Rest(plan), n) == (if n in Leading(plan) then None else Find(plan.waiting, n))
            && Ascending(Rest(plan)) && From(Rest(plan), plan.start)
  {
    var plan := MakePlan(db, through, extra);
    PlanFacts(db, through, extra, n);
    WithoutFind(plan.waiting, Leading(plan), n);
    var limit := if plan.waiting == [] then 0 else plan.waiting[|plan.waiting| - 1].sequence + 1;
    WithoutAscends(plan.waiting, Leading(plan), plan.start, limit);
    if n in Leading(plan) {
      var reach := Reachable(plan.waiting, plan.skippable);
      ReachableAscends(plan.waiting, plan.skippable);
      LeadingAreEmpty(reach, n);
      ReachableFind(plan.waiting, plan.skippable, n);
    }
  }

  lemma FirstIsLeast(list: seq<Speech>, n: int)
    requires Ascending(list) && Find(list, n).Some?
    ensures list != [] && list[0].sequence <= n
  {
    FindNumber(list, n);
  }

  // The marks made before windows are built do not touch a useful waiting chunk.
  lemma MarksSpare(db: Db, through: Option<int>, extra: set<int>, n: int)
    requires Ordered(db.chunks) && Waiting(db, through, n)
    ensures var plan := MakePlan(db, through, extra);
            && Lookup(Prepared(db, plan, through).chunks, n) == Lookup(db.chunks, n)
            && Lookup(HoleMarked(Prepared(db, plan, through), plan, Rest(plan)).chunks, n) == Lookup(db.chunks, n)
  {
    var plan := MakePlan(db, through, extra);
    var all := UpTo(db.chunks, through);
    var failed := FailedNumbers(all, plan.start, plan.skippable);
    LookupNumber(db.chunks, n);
    PlanFacts(db, through, extra, n);
    LeadingFacts(db, through, extra, n);
    NotFailed(db, through, plan.start, plan.skippable, n);
    ExcludedLookup(db.chunks, failed, SttFailure, n);
    ExcludedLookup(Excluded(db.chunks, failed, SttFailure), Leading(plan), EmptyTranscript, n);
    NotInHole(plan, Rest(plan), n);
    HoleSpares(Prepared(db, plan, through), plan, Rest(plan), n);
  }

  lemma NotFailed(db: Db, through: Option<int>, start: nat, skippable: set<int>, n: int)
    requires Ordered(db.chunks) && Waiting(db, through, n)
    ensures n !in FailedNumbers(UpTo(db.chunks, through), start, skippable)
  {
    var limit := if db.chunks == [] then 0 else db.chunks[|db.chunks| - 1].speech.sequence + 1;
    UpToOrdered(db.chunks, through, limit);
    UpToLookup(db.chunks, through, n);
    if n in FailedNumbers(UpTo(db.chunks, through), start, skippable) {
      FailedLookup(UpTo(db.chunks, through), start, skippable, n);
    }
  }

  lemma NotInHole(plan: Plan, rest: seq<Speech>, n: int)
    requires Ascending(rest) && (n >= plan.start ==> Find(rest, n).Some?)
    ensures n !in Hole(plan.start, rest)
  {
    if n >= plan.start {
      FirstIsLeast(rest, n);
    }
  }

  lemma HoleSpares(db: Db, plan: Plan, rest: seq<Speech>, n: int)
    requires n !in Hole(plan.start, rest) && Lookup(db.chunks, n).Some?
    ensures Lookup(HoleMarked(db, plan, rest).chunks, n) == Lookup(db.chunks, n)
  {
    var hole := Hole(plan.start, rest);
    LookupNumber(db.chunks, n);
    ExcludedLookup(db.chunks, hole - plan.present, SequenceMissing, n);
    ExcludedLookup(Excluded(db.chunks, hole - plan.present, SequenceMissing), hole * plan.present, SttFailure, n);
  }

  // ----- which chunks the windows of the call own

  lemma {:induction false} BetweenBelow(chunks: seq<Chunk>, start: nat, end: nat)
    ensures Below(CompletedBetween(chunks, start, end), end + 1)
  {
    if chunks != [] {
      BetweenBelow(chunks[..|chunks| - 1], start, end);
    }
  }

  // What a new window repeats lies before the first number it may own.
  lemma OverlapBelow(db: Db)
    ensures Below(Overlap(OverlapPrefix(db)), ExpectedStart(db))
  {
    var prefix := OverlapPrefix(db);
    if db.windows != [] && prefix != [] {
      var doc := LastWindow(db.windows).doc;
      BetweenBelow(db.chunks, doc.overlapStart.value, doc.sequenceEnd);
    }
    assert Below(prefix, ExpectedStart(db));
    OrderedUniqueAscends(prefix);
    UsefulOnly(OrderedUnique(prefix));
    BelowMembers(Overlap(prefix), prefix, ExpectedStart(db));
  }

  lemma BelowMembers(some: seq<Speech>, all: seq<Speech>, n: int)
    requires Below(all, n) && forall c :: c in some ==> c in all
    ensures Below(some, n)
  {
    forall i | 0 <= i < |some|
      ensures some[i].sequence < n
    {
      assert some[i] in all;
    }
  }

  lemma ReachableFrom(list: seq<Speech>, skippable: set<int>, low: int)
    requires From(list, low)
    ensures From(Reachable(list, skippable), low)
  {
    ReachableAscends(list, skippable);
    var reach := Reachable(list, skippable);
    forall i | 0 <= i < |reach|
      ensures low <= reach[i].sequence
    {
      assert reach[i] in list;
    }
  }

  lemma UsefulPrefix(a: seq<Speech>, b: seq<Speech>)
    requires a <= b && (a == b || Useful(b) == [])
    ensures Useful(a) == Useful(b)
  {
    UsefulConcat(a, b[|a|..]);
    Cut(b, |a|);
  }

  // A final call windows exactly the useful chunks its walk reaches.
  lemma ForcedBuildOwns(cfg: Settings, list: seq<Speech>, startIndex: nat, prefix: seq<Speech>, skippable: set<int>, boundary: nat,
                        n: int)
    requires Ascending(list) && From(list, boundary) && Below(Overlap(prefix), boundary)
    ensures var built := Build(cfg, list, startIndex, true, prefix, skippable);
            var found := Find(Reachable(list, skippable), n);
            && (n in OwnedSet(built) <==> found.Some? && IsUseful(found.value))
            && (n in SkippedSet(built) ==> found.Some? && !IsUseful(found.value))
  {
    var reach := Reachable(list, skippable);
    ReachableAscends(list, skippable);
    ReachableFrom(list, skippable, boundary);
    var segments := BuildPartitions(cfg, list, startIndex, true, prefix, skippable, boundary);
    var flat := Flatten(segments);
    ListedNumbers(cfg, Build(cfg, list, startIndex, true, prefix, skippable), Overlap(prefix), startIndex, segments, n);
    UsefulPrefix(flat, reach);
    UsefulFind(reach, n);
    if Find(Empties(flat), n).Some? {
      EmptiesPrefixFind(flat, reach, n);
    }
  }

  lemma EmptiesPrefixFind(a: seq<Speech>, b: seq<Speech>, n: int)
    requires a <= b && Ascending(b) && Find(Empties(a), n).Some?
    ensures Find(b, n).Some? && !IsUseful(Find(b, n).value)
  {
    FindNumber(Empties(a), n);
    UsefulOnly(a);
    var c := Find(Empties(a), n).value;
    assert c in Empties(a);
    var i :| 0 <= i < |a| && a[i] == c;
    assert b[i] == c;
    FindAt(b, i);
  }

  // ----- the theorem

  // The walk of a final call comes to `n`: the useful chunks are not all covered
  // already, `n` is not behind the last window, and every number in between
  // waits for a window or may be skipped.
  ghost predicate Reaches(db: Db, through: Option<int>, extra: set<int>, n: int) {
    var plan := MakePlan(db, through, extra);
    && !AlreadyCovered(db, true, through)
    && plan.start <= n
    && Clear(plan.waiting, SkippableNow(plan, Rest(plan), true), plan.start, n)
  }

  // Leaving out the leading chunks and starting at the first remaining one
  // changes nothing for the chunks that wait.
  lemma ClearFromRest(db: Db, force: bool, through: Option<int>, extra: set<int>, n: int)
    requires Ordered(db.chunks) && Find(Rest(MakePlan(db, through, extra)), n).Some?
    requires var plan := MakePlan(db, through, extra); Hole(plan.start, Rest(plan)) <= SkippableNow(plan, Rest(plan), force)
    ensures var plan := MakePlan(db, through, extra);
            var sk := SkippableNow(plan, Rest(plan), force);
            && Rest(plan) != []
            && (Clear(Rest(plan), sk, Rest(plan)[0].sequence, n) <==> Clear(plan.waiting, sk, plan.start, n))
  {
    var plan := MakePlan(db, through, extra);
    var rest, sk := Rest(plan), SkippableNow(plan, Rest(plan), force);
    LeadingFacts(db, through, extra, n);
    FirstIsLeast(rest, n);
    forall m: int
      ensures m in Hole(plan.start, rest) <==> plan.start <= m < rest[0].sequence
      ensures Passable(rest, sk, m) <==> Passable(plan.waiting, sk, m)
    {
      LeadingFacts(db, through, extra, m);
    }
    if Clear(rest, sk, rest[0].sequence, n) {
      forall m | plan.start <= m < n
        ensures Passable(plan.waiting, sk, m)
      {
        if m < rest[0].sequence {
          assert m in Hole(plan.start, rest);
        } else {
          assert Passable(rest, sk, m);
        }
      }
    }
    if Clear(plan.waiting, sk, plan.start, n) {
      forall m | rest[0].sequence <= m < n
        ensures Passable(rest, sk, m)
      {
        assert Passable(plan.waiting, sk, m);
      }
    }
  }

  // A waiting chunk not behind the last window is among the rest.
  lemma WaitingIsListed(db: Db, through: Option<int>, extra: set<int>, n: int)
    requires Ordered(db.chunks) && Waiting(db, through, n)
    ensures var plan := MakePlan(db, through, extra);
            && (Find(plan.waiting, n).Some? <==> plan.start <= n)
            && (Find(Rest(plan), n).Some? <==> plan.start <= n)
            && (plan.start <= n ==> IsUseful(Find(Rest(plan), n).value))
            && From(Rest(plan), plan.start) && Ascending(Rest(plan))
  {
    LookupNumber(db.chunks, n);
    PlanFacts(db, through, extra, n);
    LeadingFacts(db, through, extra, n);
  }

  // A hole that may not be skipped keeps the walk from every waiting chunk.
  lemma BlockedHole(db: Db, force: bool, through: Option<int>, extra: set<int>, n: int)
    requires Ordered(db.chunks) && Waiting(db, through, n)
    requires var plan := MakePlan(db, through, extra); !(Hole(plan.start, Rest(plan)) <= SkippableNow(plan, Rest(plan), force))
    ensures var plan := MakePlan(db, through, extra);
            !(plan.start <= n && Clear(plan.waiting, SkippableNow(plan, Rest(plan), force), plan.start, n))
  {
    var plan := MakePlan(db, through, extra);
    var rest, sk := Rest(plan), SkippableNow(plan, Rest(plan), force);
    var h :| h in Hole(plan.start, rest) && h !in sk;
    WaitingIsListed(db, through, extra, n);
    LeadingFacts(db, through, extra, h);
    if Find(rest, h).Some? {
      FirstIsLeast(rest, h);
    }
    if plan.start <= n {
      FirstIsLeast(rest, n);
      assert !Passable(plan.waiting, sk, h);
    }
  }

  // The windows that are built once no hole blocks the call.
  lemma BuiltReaches(cfg: Settings, db: Db, ready: Db, through: Option<int>, extra: set<int>, n: int)
    requires Ordered(db.chunks) && Waiting(db, through, n) && !AlreadyCovered(db, true, through)
    requires ready.windows == db.windows && ready.conversation == db.conversation
    requires var plan := MakePlan(db, through, extra); Hole(plan.start, Rest(plan)) <= SkippableNow(plan, Rest(plan), true)
    ensures var built := BuiltFrom(cfg, ready, MakePlan(db, through, extra), true);
            && (n in OwnedSet(built) <==> Reaches(db, through, extra, n))
            && n !in SkippedSet(built)
  {
    var plan := MakePlan(db, through, extra);
    var rest, sk := Rest(plan), SkippableNow(plan, Rest(plan), true);
    WaitingIsListed(db, through, extra, n);
    OverlapBelow(ready);
    ForcedBuildOwns(cfg, rest, |ready.windows|, OverlapPrefix(ready), sk, plan.start, n);
    if rest != [] {
      ReachableFind(rest, sk, n);
    }
    if Find(rest, n).Some? {
      ClearFromRest(db, true, through, extra, n);
    }
  }

  lemma LeftoversSpare(db: Db, through: Option<int>, extra: set<int>, n: int)
    requires Ordered(db.chunks) && Waiting(db, through, n)
    ensures n !in EmptyNumbers(Rest(MakePlan(db, through, extra)))
  {
    var plan := MakePlan(db, through, extra);
    var rest := Rest(plan);
    WaitingIsListed(db, through, extra, n);
    NumbersFind(Empties(rest), n);
    if Find(Empties(rest), n).Some? {
      EmptiesPrefixFind(rest, rest, n);
    }
  }

  lemma CreatedWaits(db: Db, built: seq<Built>, deferred: bool, leftover: set<int>, through: Option<int>, n: int)
    requires Waiting(db, through, n) && n !in SkippedSet(built) && n !in leftover
    ensures Waiting(MarkExcluded(CreateWindows(db, built, deferred), leftover, EmptyTranscript), through, n) <==> n !in OwnedSet(built)
  {
    CreatedLookup(db, built, deferred, n);
    var created := CreateWindows(db, built, deferred);
    ExcludedLookup(created.chunks, leftover, EmptyTranscript, n);
    LookupNumber(created.chunks, n);
  }

  lemma ClosesAll(cfg: Settings, db: Db, pipeline: bool, through: Option<int>, extra: set<int>, n: int)
    requires Ordered(db.chunks) && Waiting(db, through, n) && !AlreadyCovered(db, true, through)
    requires var plan := MakePlan(db, through, extra);
             && (plan.waiting != [] || plan.skippable != {})
             && Hole(plan.start, Rest(plan)) <= SkippableNow(plan, Rest(plan), true)
    ensures Waiting(Close(cfg, db, true, pipeline, through, extra), through, n) <==> !Reaches(db, through, extra, n)
  {
    var plan := MakePlan(db, through, extra);
    var ready := HoleMarked(Prepared(db, plan, through), plan, Rest(plan));
    MarksSpare(db, through, extra, n);
    BuiltReaches(cfg, db, ready, through, extra, n);
    LeftoversSpare(db, through, extra, n);
    CreatedWaits(ready, BuiltFrom(cfg, ready, plan, true), pipeline || db.conversation.isExtension, EmptyNumbers(Rest(plan)),
                 through, n);
  }

  // A final close windows exactly the waiting chunks its walk reaches.
  lemma ForcedCloseTakes(cfg: Settings, db: Db, pipeline: bool, through: Option<int>, extra: set<int>, n: int)
    requires Ordered(db.chunks) && Waiting(db, through, n)
    ensures Waiting(Close(cfg, db, true, pipeline, through, extra), through, n) <==> !Reaches(db, through, extra, n)
  {
    var plan := MakePlan(db, through, extra);
    if !AlreadyCovered(db, true, through) {
      if plan.waiting == [] && plan.skippable == {} {
        WaitingIsListed(db, through, extra, n);
      } else if !(Hole(plan.start, Rest(plan)) <= SkippableNow(plan, Rest(plan), true)) {
        MarksSpare(db, through, extra, n);
        BlockedHole(db, true, through, extra, n);
      } else {
        ClosesAll(cfg, db, pipeline, through, extra, n);
      }
    }
  }

  // ----- what no call changes

  // A call may only mark a chunk that is still unprocessed, and the mark says
  // nothing about its speech.
  predicate MarkedFrom(before: Chunk, after: Chunk) {
    && after.speech == before.speech && after.stt == before.stt
    && after.terminal == before.terminal && after.permanentFailure == before.permanentFailure
    && (before.exclusion.Some? ==> after.exclusion.Some?) && (before.windowId.Some? ==> after.windowId.Some?)
    && (after != before ==> before.processing.Unprocessed? && after.processing.Processed?)
  }

  predicate OnlyMarked(before: seq<Chunk>, after: seq<Chunk>, n: int) {
    match (Lookup(before, n), Lookup(after, n))
    case (Some(b), Some(a)) => MarkedFrom(b, a)
    case (None, None) => true
    case _ => false
  }

  lemma ExcludedOnlyMarks(chunks: seq<Chunk>, numbers: set<int>, reason: ExclusionReason, n: int)
    ensures OnlyMarked(chunks, Excluded(chunks, numbers, reason), n)
  {
    ExcludedLookup(chunks, numbers, reason, n);
  }

  lemma OnlyMarkedTwice(a: seq<Chunk>, b: seq<Chunk>, c: seq<Chunk>, n: int)
    requires OnlyMarked(a, b, n) && OnlyMarked(b, c, n)
    ensures OnlyMarked(a, c, n)
  {
  }

  lemma MarkedOnlyMarks(db: Db, first: set<int>, why: ExclusionReason, second: set<int>, because: ExclusionReason, n: int)
    ensures OnlyMarked(db.chunks, MarkExcluded(MarkExcluded(db, first, why), second, because).chunks, n)
  {
    var once := Excluded(db.chunks, first, why);
    ExcludedOnlyMarks(db.chunks, first, why, n);
    ExcludedOnlyMarks(once, second, because, n);
    OnlyMarkedTwice(db.chunks, once, Excluded(once, second, because), n);
  }

  lemma {:induction false} CreatedOnlyMarks(db: Db, built: seq<Built>, deferred: bool, n: int)
    ensures OnlyMarked(db.chunks, CreateWindows(db, built, deferred).chunks, n)
  {
    if built != [] {
      var k := |built| - 1;
      var earlier := CreateWindows(db, built[..k], deferred);
      CreatedOnlyMarks(db, built[..k], deferred, n);
      CreatedOneOnlyMarks(earlier, built[k], deferred, n);
      OnlyMarkedTwice(db.chunks, earlier.chunks, CreateWindow(earlier, built[k], deferred).chunks, n);
    }
  }

  lemma CreatedOneOnlyMarks(db: Db, b: Built, deferred: bool, n: int)
    ensures OnlyMarked(db.chunks, CreateWindow(db, b, deferred).chunks, n)
  {
    var claimed := Claimed(db.chunks, Numbers(b.owned), Stored(db.windows, b, deferred).1);
    ClaimedLookup(db.chunks, Numbers(b.owned), Stored(db.windows, b, deferred).1, n);
    ExcludedLookup(claimed, Numbers(b.skipped), EmptyTranscript, n);
  }

  lemma ReadyOnlyMarks(db: Db, through: Option<int>, extra: set<int>, n: int)
    ensures var plan := MakePlan(db, through, extra);
            && OnlyMarked(db.chunks, Prepared(db, plan, through).chunks, n)
            && OnlyMarked(db.chunks, HoleMarked(Prepared(db, plan, through), plan, Rest(plan)).chunks, n)
  {
    var plan := MakePlan(db, through, extra);
    var prepared := Prepared(db, plan, through);
    var failed := FailedNumbers(UpTo(db.chunks, through), plan.start, plan.skippable);
    MarkedOnlyMarks(db, failed, SttFailure, Leading(plan), EmptyTranscript, n);
    var hole := Hole(plan.start, Rest(plan));
    MarkedOnlyMarks(prepared, hole - plan.present, SequenceMissing, hole * plan.present, SttFailure, n);
    OnlyMarkedTwice(db.chunks, prepared.chunks, HoleMarked(prepared, plan, Rest(plan)).chunks, n);
  }

  lemma WindowedOnlyMarks(cfg: Settings, ready: Db, plan: Plan, force: bool, pipeline: bool, n: int)
    ensures OnlyMarked(ready.chunks, Windowed(cfg, ready, plan, force, pipeline).chunks, n)
  {
    var deferred := force && (pipeline || ready.conversation.isExtension);
    var built, leftover := BuiltFrom(cfg, ready, plan, force), EmptyNumbers(Rest(plan));
    var created := CreateWindows(ready, built, deferred);
    CreatedOnlyMarks(ready, built, deferred, n);
    ExcludedOnlyMarks(created.chunks, leftover, EmptyTranscript, n);
    OnlyMarkedTwice(ready.chunks, created.chunks, Excluded(created.chunks, leftover, EmptyTranscript), n);
  }

  lemma CloseOnlyMarks(cfg: Settings, db: Db, force: bool, pipeline: bool, through: Option<int>, extra: set<int>, n: int)
    ensures OnlyMarked(db.chunks, Close(cfg, db, force, pipeline, through, extra).chunks, n)
  {
    var plan := MakePlan(db, through, extra);
    ReadyOnlyMarks(db, through, extra, n);
    var ready := HoleMarked(Prepared(db, plan, through), plan, Rest(plan));
    WindowedOnlyMarks(cfg, ready, plan, force, pipeline, n);
    OnlyMarkedTwice(db.chunks, ready.chunks, Windowed(cfg, ready, plan, force, pipeline).chunks, n);
    CloseCases(cfg, db, force, pipeline, through, extra);
  }

  // A chunk that does not wait before a call does not wait after it.
  lemma NothingNewWaits(cfg: Settings, db: Db, force: bool, pipeline: bool, through: Option<int>, extra: set<int>, n: int)
    requires !Waiting(db, through, n)
    ensures !Waiting(Close(cfg, db, force, pipeline, through, extra), through, n)
  {
    CloseOnlyMarks(cfg, db, force, pipeline, through, extra, n);
  }
}

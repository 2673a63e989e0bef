// Closing windows after every arrival and closing them once at the end put the
// same chunks into the same windows.

module OnlineBatch {
  import opened Seqs
  import opened Text
  import opened Models
  import opened Transcript
  import opened Windowing
  import opened ChunkLists
  import opened WindowPartition
  import opened WindowCore
  import opened Store
  import opened Incremental
  import opened Lookups
  import opened ForcedClose
  import opened WindowOrder
  import opened SpokenLine

  // ----- which window owns a number

  function FirstOwner(owned: seq<seq<nat>>, n: int): Option<nat> {
    if owned == [] then None
    else
      match FirstOwner(owned[..|owned| - 1], n)
      case Some(i) => Some(i)
      case None => if n in Numbers(owned[|owned| - 1]) then Some(|owned| - 1) else None
  }

  lemma {:induction false} NumbersConcat(a: seq<nat>, b: seq<nat>, n: int)
    ensures n in Numbers(a + b) <==> n in Numbers(a) || n in Numbers(b)
  {
    if b == [] {
      EmptyRight(a);
    } else {
      NumbersConcat(a, b[..|b| - 1], n);
      InitOfConcat(a, b);
    }
  }

  lemma {:induction false} OwnerIsListed(owned: seq<seq<nat>>, n: int)
    ensures FirstOwner(owned, n).Some? <==> n in Numbers(Concat(owned))
  {
    if owned != [] {
      OwnerIsListed(owned[..|owned| - 1], n);
      NumbersConcat(Concat(owned[..|owned| - 1]), owned[|owned| - 1], n);
    }
  }

  lemma OwnerSnoc(owned: seq<seq<nat>>, last: seq<nat>, n: int)
    ensures FirstOwner(owned + [last], n) ==
            if FirstOwner(owned, n).Some? then FirstOwner(owned, n)
            else if n in Numbers(last) then Some(|owned|) else None
  {
    Snoc(owned, last);
  }

  lemma LastOfConcat(owned: seq<seq<nat>>)
    requires owned != [] && owned[|owned| - 1] != []
    ensures var all, last := Concat(owned), owned[|owned| - 1]; all != [] && all[|all| - 1] == last[|last| - 1]
  {
  }

  // ----- the core does not look at the windows it has closed

  function Before(earlier: Core, k: Core): Core {
    k.(owned := earlier.owned + k.owned, lists := earlier.lists + k.lists)
  }

  lemma StepBefore(cfg: Settings, earlier: Core, k: Core, c: Speech)
    ensures CoreStep(cfg, Before(earlier, k), c) == Before(earlier, CoreStep(cfg, k, c))
  {
    Assoc(earlier.owned, k.owned, [Sequences(k.mine)]);
    Assoc(earlier.lists, k.lists, [k.overlap + k.mine]);
  }

  lemma {:induction false} RunBefore(cfg: Settings, earlier: Core, k: Core, chunks: seq<Speech>)
    ensures CoreRun(cfg, Before(earlier, k), chunks) == Before(earlier, CoreRun(cfg, k, chunks))
  {
    if chunks != [] {
      RunBefore(cfg, earlier, k, chunks[..|chunks| - 1]);
      StepBefore(cfg, earlier, CoreRun(cfg, k, chunks[..|chunks| - 1]), chunks[|chunks| - 1]);
    }
  }

  lemma SettleBefore(cfg: Settings, earlier: Core, k: Core)
    ensures CoreSettle(cfg, Before(earlier, k)) == Before(earlier, CoreSettle(cfg, k))
  {
    Assoc(earlier.owned, k.owned, [Sequences(k.mine)]);
    Assoc(earlier.lists, k.lists, [k.overlap + k.mine]);
  }

  // ----- stored state that follows a core

  predicate Tracks(c: Chunk, owner: Option<nat>) {
    && c.windowId == owner
    && (c.exclusion.Some? ==> IsCompletedEmpty(c) || IsTerminalFailed(c))
    && (IsCompletedUseful(c) ==> (c.processing.Unprocessed? <==> owner.None?))
  }

  predicate TracksAt(chunks: seq<Chunk>, owned: seq<seq<nat>>, n: int) {
    Lookup(chunks, n).Some? ==> Tracks(Lookup(chunks, n).value, FirstOwner(owned, n))
  }

  ghost predicate Tracked(chunks: seq<Chunk>, owned: seq<seq<nat>>) {
    forall n :: TracksAt(chunks, owned, n)
  }

  function FirstNumber(chunks: seq<Speech>): Option<nat> {
    if chunks == [] then None else Some(chunks[0].sequence)
  }

  predicate LastMatches(windows: seq<StoredWindow>, k: Core) {
    && |windows| == |k.owned|
    && (windows != [] ==>
          var last, doc := k.owned[|windows| - 1], windows[|windows| - 1].doc;
          last != [] && doc.sequenceEnd == last[|last| - 1] && doc.overlapStart == FirstNumber(k.overlap))
  }

  // A window that is not final, and what it stores about its useful chunks.
  predicate HoldsList(cfg: Settings, w: Window, all: seq<Speech>, index: nat) {
    && all != [] && w.index == index && !w.isFinalPartial
    && w.text == WindowText(cfg.lower, all) && w.tokenCount == (if w.text == "" then 0 else cfg.estimate(w.text))
    && w.sequenceStart == all[0].sequence && w.sequenceEnd == all[|all| - 1].sequence
    && w.durationMs == OrNone(TotalDuration(all)) && w.nonEmptyChunkCount == |all|
    && w.overlapStart == FirstNumber(TailChunks(cfg, all))
  }

  // The stored windows hold the chunks of the lists.
  predicate Recorded(cfg: Settings, docs: seq<Window>, lists: seq<seq<Speech>>) {
    && |docs| == |lists|
    && (docs != [] ==>
          var n := |docs| - 1;
          Recorded(cfg, docs[..n], lists[..n]) && HoldsList(cfg, docs[n], lists[n], n))
  }

  lemma RecordedSnoc(cfg: Settings, docs: seq<Window>, lists: seq<seq<Speech>>, w: Window, all: seq<Speech>)
    requires Recorded(cfg, docs, lists) && HoldsList(cfg, w, all, |docs|)
    ensures Recorded(cfg, docs + [w], lists + [all])
  {
    Snoc(docs, w);
    Snoc(lists, all);
  }

  function CoreAfter(cfg: Settings, chunks: seq<Speech>): Core {
    CoreSettle(cfg, CoreRun(cfg, Begun([]), chunks))
  }

  function LineOf(db: Db): seq<Speech> {
    Line(db.chunks, FirstSequence(db.conversation))
  }

  // The stored windows and chunks are those of a core.
  ghost predicate Tracking(db: Db, k: Core) {
    && Ordered(db.chunks) && InOrder(Docs(db.windows))
    && LastMatches(db.windows, k) && Tracked(db.chunks, k.owned)
  }

  // They are those of the core that has run over `done`.
  ghost predicate Online(cfg: Settings, db: Db, done: seq<Speech>) {
    && done <= LineOf(db) && Tracking(db, CoreAfter(cfg, done))
    && Recorded(cfg, Docs(db.windows), CoreAfter(cfg, done).lists)
  }

  // ----- reading an online state

  // Two parts of an ascending list, below and from `cut`.
  lemma FindParts(a: seq<Speech>, b: seq<Speech>, cut: int, n: int)
    requires Below(a, cut) && From(b, cut)
    ensures Find(a + b, n) == if n >= cut then Find(b, n) else Find(a, n)
    ensures Find(a, n).Some? ==> n < cut
    ensures Find(b, n).Some? ==> n >= cut
  {
    FindConcat(a, b, n);
    if Find(a, n).Some? {
      FindNumber(a, n);
    }
    if Find(b, n).Some? {
      FindNumber(b, n);
    }
  }

  // The core has run over `size` chunks of the line; the windows own the first `n0`.
  ghost predicate Owning(db: Db, k: Core, size: nat, n0: nat, from: nat) {
    var line := LineOf(db);
    && from <= n0 <= size <= |line|
    && k.mine == line[n0..size] && k.overlap == line[from..n0] && Concat(k.owned) == Sequences(line[..n0])
    && ExpectedStart(db) == (if n0 == 0 then FirstSequence(db.conversation) else line[n0 - 1].sequence + 1)
    && (k.owned == [] <==> n0 == 0)
  }

  lemma PrefixSlices<T>(a: seq<T>, b: seq<T>, i: nat, j: nat)
    requires a <= b && i <= j <= |a|
    ensures a[i..j] == b[i..j] && a[..j] == b[..j] && a[j..] == b[j..|a|]
  {
  }

  // The first number not covered, from the numbers the windows own.
  lemma StartAfter(db: Db, k: Core, mine: seq<Speech>)
    requires InOrder(Docs(db.windows)) && LastMatches(db.windows, k) && Concat(k.owned) == Sequences(mine)
    ensures ExpectedStart(db) == if mine == [] then FirstSequence(db.conversation) else mine[|mine| - 1].sequence + 1
    ensures k.owned == [] <==> mine == []
  {
    if db.windows != [] {
      LastIsLast(db.windows);
      LastOfConcat(k.owned);
      SequencesAt(mine, |mine| - 1);
    }
  }

  lemma OwnsOfLine(cfg: Settings, k: Core, done: seq<Speech>, line: seq<Speech>, n0: nat, from: nat)
    requires Owns(cfg, k, done, n0, from) && done <= line
    ensures from <= n0 <= |done| <= |line|
    ensures k.mine == line[n0..|done|] && k.overlap == line[from..n0] && Concat(k.owned) == Sequences(line[..n0])
  {
    PrefixSlices(done, line, from, n0);
  }

  lemma OnlineOwns(cfg: Settings, db: Db, done: seq<Speech>) returns (n0: nat, from: nat)
    requires Online(cfg, db, done)
    ensures Owning(db, CoreAfter(cfg, done), |done|, n0, from)
  {
    n0, from := SettleOwns(cfg, done);
    LineOwns(cfg, db, CoreAfter(cfg, done), done, n0, from);
  }

  lemma LineOwns(cfg: Settings, db: Db, k: Core, done: seq<Speech>, n0: nat, from: nat)
    requires InOrder(Docs(db.windows)) && LastMatches(db.windows, k) && done <= LineOf(db) && Owns(cfg, k, done, n0, from)
    ensures Owning(db, k, |done|, n0, from)
  {
    OwnsOfLine(cfg, k, done, LineOf(db), n0, from);
    StartAfter(db, k, LineOf(db)[..n0]);
  }

  // The line around the number one behind its element `n0 - 1`.
  lemma LineAround(line: seq<Speech>, n0: nat, start: int, n: int)
    requires Ascending(line) && n0 <= |line|
    requires if n0 == 0 then From(line, start) else start == line[n0 - 1].sequence + 1
    ensures Find(line[n0..], n) == if n >= start then Find(line, n) else None
    ensures Find(line[..n0], n).Some? <==> n < start && Find(line, n).Some?
  {
    Cut(line, n0);
    assert Below(line[..n0], start);
    assert From(line[n0..], start);
    FindParts(line[..n0], line[n0..], start, n);
  }

  // What windows own lies in the line before the first number they do not cover.
  lemma LineParts(db: Db, k: Core, size: nat, n0: nat, from: nat, n: int)
    requires Owning(db, k, size, n0, from)
    ensures var line, start := LineOf(db), ExpectedStart(db);
            && Find(line[n0..], n) == (if n >= start then Find(line, n) else None)
            && (FirstOwner(k.owned, n).Some? <==> n < start && Find(line, n).Some?)
  {
    LineAscends(db.chunks, FirstSequence(db.conversation));
    LineFrom(db.chunks, FirstSequence(db.conversation));
    LineAround(LineOf(db), n0, ExpectedStart(db), n);
    OwnerIsListed(k.owned, n);
    NumbersFind(LineOf(db)[..n0], n);
  }

  lemma LineFrom(chunks: seq<Chunk>, first: nat)
    ensures From(Line(chunks, first), first)
  {
    var list := CompletedBetween(chunks, 0, Top(chunks));
    BySequenceKeys(list);
    WalkAscends(BySequence(list), Failures(chunks), first, Top(chunks));
    var walk := Walk(BySequence(list), Failures(chunks), first, Top(chunks));
    forall i | 0 <= i < |walk|
      ensures first <= walk[i].sequence
    {
      assert walk[i] in walk;
    }
    UsefulFrom(walk, first);
  }

  // ----- what a call finds

  function PlanOf(db: Db): Plan {
    MakePlan(db, None, {})
  }

  // From the first number not covered on, no window owns a chunk.
  lemma UnownedFromStart(db: Db, k: Core, size: nat, n0: nat, from: nat, m: int)
    requires Tracking(db, k) && Owning(db, k, size, n0, from) && ExpectedStart(db) <= m
    ensures Lookup(db.chunks, m).Some? ==> Tracks(Lookup(db.chunks, m).value, None)
  {
    LineParts(db, k, size, n0, from, m);
    assert TracksAt(db.chunks, k.owned, m);
  }

  // There a number is passable when its transcript is settled.
  lemma PassableWhenSettled(db: Db, m: int)
    requires Ordered(db.chunks) && ExpectedStart(db) <= m
    requires Lookup(db.chunks, m).Some? ==> Tracks(Lookup(db.chunks, m).value, None)
    ensures Passable(PlanOf(db).waiting, PlanOf(db).skippable, m) <==> SpokenLine.Settled(db.chunks, m)
    ensures Waiting(db, None, m) <==> Lookup(db.chunks, m).Some? && IsCompletedUseful(Lookup(db.chunks, m).value)
  {
    PlanFacts(db, None, {}, m);
  }

  lemma SettledUpTo(db: Db, n0: nat)
    requires Ordered(db.chunks) && n0 <= |LineOf(db)|
    requires ExpectedStart(db) == if n0 == 0 then FirstSequence(db.conversation) else LineOf(db)[n0 - 1].sequence + 1
    ensures AllSettled(db.chunks, FirstSequence(db.conversation), ExpectedStart(db))
    ensures FirstSequence(db.conversation) <= ExpectedStart(db)
  {
    if n0 > 0 {
      InLineAt(db.chunks, FirstSequence(db.conversation), n0 - 1);
      SettledThrough(db.chunks, FirstSequence(db.conversation), LineOf(db)[n0 - 1].sequence);
    }
  }

  // Every number before the first one not covered is settled.
  lemma SettledBefore(db: Db, k: Core, size: nat, n0: nat, from: nat)
    requires Tracking(db, k) && Owning(db, k, size, n0, from)
    ensures AllSettled(db.chunks, FirstSequence(db.conversation), ExpectedStart(db))
    ensures FirstSequence(db.conversation) <= ExpectedStart(db)
  {
    SettledUpTo(db, n0);
  }

  lemma InLineFromStart(db: Db, k: Core, size: nat, n0: nat, from: nat, n: int)
    requires Tracking(db, k) && Owning(db, k, size, n0, from) && ExpectedStart(db) <= n
    ensures InLine(db.chunks, FirstSequence(db.conversation), n) <==>
            Waiting(db, None, n) && Clear(PlanOf(db).waiting, PlanOf(db).skippable, ExpectedStart(db), n)
  {
    SettledBefore(db, k, size, n0, from);
    UnownedFromStart(db, k, size, n0, from, n);
    PassableWhenSettled(db, n);
    forall m | ExpectedStart(db) <= m < n
      ensures Passable(PlanOf(db).waiting, PlanOf(db).skippable, m) <==> SpokenLine.Settled(db.chunks, m)
    {
      UnownedFromStart(db, k, size, n0, from, m);
      PassableWhenSettled(db, m);
    }
  }

  // The part of the line that no window owns is what the call can take.
  lemma NewsFind(db: Db, k: Core, size: nat, n0: nat, from: nat, n: int)
    requires Tracking(db, k) && Owning(db, k, size, n0, from)
    ensures var found := Find(LineOf(db)[n0..], n);
            && (found.Some? <==> ExpectedStart(db) <= n && Waiting(db, None, n)
                                 && Clear(PlanOf(db).waiting, PlanOf(db).skippable, ExpectedStart(db), n))
            && (found.Some? ==> found.value == Lookup(db.chunks, n).value.speech)
  {
    LineParts(db, k, size, n0, from, n);
    LineFind(db.chunks, FirstSequence(db.conversation), n);
    if ExpectedStart(db) <= n {
      InLineFromStart(db, k, size, n0, from, n);
    }
  }

  predicate Unblocked(db: Db) {
    var plan := PlanOf(db);
    Hole(plan.start, Rest(plan)) <= plan.skippable
  }

  // A number the call can take waits, and no hole comes before it.
  lemma TakenIsOpen(db: Db, n: int)
    requires Ordered(db.chunks) && ExpectedStart(db) <= n && Waiting(db, None, n)
    requires Clear(PlanOf(db).waiting, PlanOf(db).skippable, ExpectedStart(db), n)
    ensures PlanOf(db).waiting != [] && Unblocked(db)
  {
    WaitingIsListed(db, None, {}, n);
    if !Unblocked(db) {
      BlockedHole(db, false, None, {}, n);
    }
  }

  lemma FirstNews(db: Db, k: Core, size: nat, n0: nat, from: nat)
    requires Tracking(db, k) && Owning(db, k, size, n0, from) && n0 < |LineOf(db)|
    ensures PlanOf(db).waiting != [] && Unblocked(db)
  {
    var news := LineOf(db)[n0..];
    NewsAscends(db, n0);
    FindAt(news, 0);
    NewsFind(db, k, size, n0, from, news[0].sequence);
    TakenIsOpen(db, news[0].sequence);
  }

  lemma NoNews(db: Db, k: Core, size: nat, n0: nat, from: nat)
    requires Tracking(db, k) && Owning(db, k, size, n0, from)
    requires PlanOf(db).waiting == [] || !Unblocked(db)
    ensures n0 == size == |LineOf(db)|
  {
    if n0 < |LineOf(db)| {
      FirstNews(db, k, size, n0, from);
    }
  }

  lemma ReachedAscends(db: Db)
    ensures Ascending(Useful(Reachable(Rest(PlanOf(db)), PlanOf(db).skippable)))
  {
    ReachableAscends(Rest(PlanOf(db)), PlanOf(db).skippable);
    UsefulAscends(Reachable(Rest(PlanOf(db)), PlanOf(db).skippable));
  }

  lemma NewsAscends(db: Db, n0: nat)
    requires n0 <= |LineOf(db)|
    ensures Ascending(LineOf(db)[n0..])
  {
    LineAscends(db.chunks, FirstSequence(db.conversation));
  }

  lemma NewsFoundAlike(db: Db, k: Core, size: nat, n0: nat, from: nat)
    requires Tracking(db, k) && Owning(db, k, size, n0, from) && Unblocked(db)
    ensures forall n :: Find(Useful(Reachable(Rest(PlanOf(db)), PlanOf(db).skippable)), n) == Find(LineOf(db)[n0..], n)
  {
    forall n: int
      ensures Find(Useful(Reachable(Rest(PlanOf(db)), PlanOf(db).skippable)), n) == Find(LineOf(db)[n0..], n)
    {
      NewsIsReachedAt(db, k, size, n0, from, n);
    }
  }

  lemma NewsIsReached(db: Db, k: Core, size: nat, n0: nat, from: nat)
    requires Tracking(db, k) && Owning(db, k, size, n0, from) && Unblocked(db)
    ensures Useful(Reachable(Rest(PlanOf(db)), PlanOf(db).skippable)) == LineOf(db)[n0..]
  {
    var reached, news := Useful(Reachable(Rest(PlanOf(db)), PlanOf(db).skippable)), LineOf(db)[n0..];
    ReachedAscends(db);
    NewsAscends(db, n0);
    NewsFoundAlike(db, k, size, n0, from);
    SameContent(reached, news);
  }

  lemma NewsIsReachedAt(db: Db, k: Core, size: nat, n0: nat, from: nat, n: int)
    requires Tracking(db, k) && Owning(db, k, size, n0, from) && Unblocked(db)
    ensures Find(Useful(Reachable(Rest(PlanOf(db)), PlanOf(db).skippable)), n) == Find(LineOf(db)[n0..], n)
  {
    var plan := PlanOf(db);
    var rest := Rest(plan);
    var reach := Reachable(rest, plan.skippable);
    ReachableAscends(rest, plan.skippable);
    UsefulFind(reach, n);
    NewsFind(db, k, size, n0, from, n);
    RestIsWaiting(db, n);
    if rest != [] {
      ReachableFind(rest, plan.skippable, n);
    }
    if Find(rest, n).Some? {
      ClearFromRest(db, false, None, {}, n);
    }
  }

  // A useful chunk is among the rest when it waits and is not covered.
  lemma RestIsWaiting(db: Db, n: int)
    requires Ordered(db.chunks)
    ensures var found := Find(Rest(PlanOf(db)), n);
            && Ascending(Rest(PlanOf(db)))
            && (found.Some? ==>
                  var c := Lookup(db.chunks, n);
                  c.Some? && found.value == c.value.speech && c.value.stt.SttCompleted?)
            && (found.Some? && IsUseful(found.value) <==> ExpectedStart(db) <= n && Waiting(db, None, n))
  {
    PlanFacts(db, None, {}, n);
    LeadingFacts(db, None, {}, n);
    if Waiting(db, None, n) {
      WaitingIsListed(db, None, {}, n);
    }
  }

  // ----- the chunks a new window repeats

  lemma ThreeParts<T>(a: seq<T>, i: nat, j: nat)
    requires i <= j <= |a|
    ensures a[..i] + a[i..j] + a[j..] == a
  {
  }

  lemma SliceBounds(line: seq<Speech>, from: nat, to: nat)
    requires Ascending(line) && from < to <= |line|
    ensures Below(line[..from], line[from].sequence) && From(line[from..to], line[from].sequence)
    ensures Below(line[..from] + line[from..to], line[to - 1].sequence + 1) && From(line[to..], line[to - 1].sequence + 1)
  {
  }

  lemma FindSlice(line: seq<Speech>, from: nat, to: nat, n: int)
    requires Ascending(line) && from < to <= |line|
    ensures Find(line[from..to], n) == if line[from].sequence <= n <= line[to - 1].sequence then Find(line, n) else None
  {
    SliceBounds(line, from, to);
    FindParts(line[..from], line[from..to], line[from].sequence, n);
    FindParts(line[..from] + line[from..to], line[to..], line[to - 1].sequence + 1, n);
    ThreeParts(line, from, to);
  }

  lemma OverlapFind(db: Db, n: int)
    requires Ordered(db.chunks) && db.windows != [] && LastWindow(db.windows).doc.overlapStart.Some?
    ensures var doc, found := LastWindow(db.windows).doc, Lookup(db.chunks, n);
            Find(Overlap(OverlapPrefix(db)), n) ==
            if found.Some? && IsCompletedUseful(found.value) && doc.overlapStart.value <= n <= doc.sequenceEnd
            then Some(found.value.speech) else None
  {
    var prefix, doc := OverlapPrefix(db), LastWindow(db.windows).doc;
    BetweenAscends(db.chunks, doc.overlapStart.value, doc.sequenceEnd, Top(db.chunks) + 1);
    OrderedUniqueFixed(prefix);
    UsefulFind(prefix, n);
    BetweenFind(db.chunks, doc.overlapStart.value, doc.sequenceEnd, n);
  }

  // A useful chunk between two chunks of the line is in the line.
  lemma LineBetween(chunks: seq<Chunk>, first: nat, from: nat, to: nat, n: int)
    requires Ordered(chunks) && from < to <= |Line(chunks, first)|
    ensures var line := Line(chunks, first);
            Find(line[from..to], n) ==
            if Lookup(chunks, n).Some? && IsCompletedUseful(Lookup(chunks, n).value)
               && line[from].sequence <= n <= line[to - 1].sequence
            then Some(Lookup(chunks, n).value.speech) else None
  {
    var line := Line(chunks, first);
    LineAscends(chunks, first);
    FindSlice(line, from, to, n);
    LineFind(chunks, first, n);
    InLineAt(chunks, first, from);
    InLineAt(chunks, first, to - 1);
  }

  lemma OverlapIsRead(db: Db, k: Core, size: nat, n0: nat, from: nat)
    requires Tracking(db, k) && Owning(db, k, size, n0, from)
    ensures Overlap(OverlapPrefix(db)) == k.overlap
  {
    if from < n0 {
      LastOverlap(db, k, size, n0, from);
      SameOverlap(db, from, n0);
    } else {
      LastHasNoOverlap(db, k, size, n0, from);
      NoOverlap(db);
    }
  }

  lemma NoOverlap(db: Db)
    requires db.windows == [] || LastWindow(db.windows).doc.overlapStart.None?
    ensures Overlap(OverlapPrefix(db)) == []
  {
  }

  lemma SaysNoOverlap(windows: seq<StoredWindow>, k: Core)
    requires InOrder(Docs(windows)) && LastMatches(windows, k) && k.overlap == []
    ensures windows == [] || LastWindow(windows).doc.overlapStart.None?
  {
    if windows != [] {
      LastIsLast(windows);
    }
  }

  lemma LastHasNoOverlap(db: Db, k: Core, size: nat, n0: nat, from: nat)
    requires Tracking(db, k) && Owning(db, k, size, n0, from) && from == n0
    ensures db.windows == [] || LastWindow(db.windows).doc.overlapStart.None?
    ensures k.overlap == []
  {
    assert LineOf(db)[from..n0] == [];
    SaysNoOverlap(db.windows, k);
  }

  // What the last window says about its end, in terms of the line.
  lemma LastOverlap(db: Db, k: Core, size: nat, n0: nat, from: nat)
    requires Tracking(db, k) && Owning(db, k, size, n0, from) && from < n0
    ensures db.windows != [] && LastWindow(db.windows).doc.overlapStart == Some(LineOf(db)[from].sequence)
    ensures LastWindow(db.windows).doc.sequenceEnd == LineOf(db)[n0 - 1].sequence
  {
    LastIsLast(db.windows);
  }

  // The two ends of the overlap, as the last window and the line have them.
  predicate EndsMatch(db: Db, from: nat, n0: nat) {
    && from < n0 <= |LineOf(db)| && db.windows != []
    && LastWindow(db.windows).doc.overlapStart == Some(LineOf(db)[from].sequence)
    && LastWindow(db.windows).doc.sequenceEnd == LineOf(db)[n0 - 1].sequence
  }

  lemma OverlapFoundAlike(db: Db, from: nat, n0: nat)
    requires Ordered(db.chunks) && EndsMatch(db, from, n0)
    ensures forall n :: Find(Overlap(OverlapPrefix(db)), n) == Find(LineOf(db)[from..n0], n)
  {
    forall n: int
      ensures Find(Overlap(OverlapPrefix(db)), n) == Find(LineOf(db)[from..n0], n)
    {
      OverlapFind(db, n);
      LineBetween(db.chunks, FirstSequence(db.conversation), from, n0, n);
    }
  }

  lemma SliceAscends(line: seq<Speech>, from: nat, to: nat)
    requires Ascending(line) && from <= to <= |line|
    ensures Ascending(line[from..to])
  {
  }

  lemma OverlapAscends(prefix: seq<Speech>)
    ensures Ascending(Overlap(prefix))
  {
    OrderedUniqueAscends(prefix);
    UsefulAscends(OrderedUnique(prefix));
  }

  lemma SameOverlap(db: Db, from: nat, n0: nat)
    requires Ordered(db.chunks) && EndsMatch(db, from, n0)
    ensures Overlap(OverlapPrefix(db)) == LineOf(db)[from..n0]
  {
    var overlap, slice := Overlap(OverlapPrefix(db)), LineOf(db)[from..n0];
    OverlapAscends(OverlapPrefix(db));
    LineAscends(db.chunks, FirstSequence(db.conversation));
    SliceAscends(LineOf(db), from, n0);
    OverlapFoundAlike(db, from, n0);
    SameContent(overlap, slice);
  }

  // ----- marks on quiet chunks

  predicate QuietAt(chunks: seq<Chunk>, n: int) {
    Lookup(chunks, n).Some? ==> IsCompletedEmpty(Lookup(chunks, n).value) || IsTerminalFailed(Lookup(chunks, n).value)
  }

  lemma SkippableIsQuiet(db: Db, owned: seq<seq<nat>>, n: int)
    requires Ordered(db.chunks) && Tracked(db.chunks, owned) && n in PlanOf(db).skippable
    ensures QuietAt(db.chunks, n)
  {
    PlanFacts(db, None, {}, n);
    assert TracksAt(db.chunks, owned, n);
  }

  ghost predicate OnlyQuiet(chunks: seq<Chunk>, numbers: set<int>) {
    forall n :: n in numbers ==> QuietAt(chunks, n)
  }

  lemma QuietTracks(c: Chunk, owner: Option<nat>, numbers: set<int>, reason: ExclusionReason)
    requires Tracks(c, owner) && (c.speech.sequence in numbers ==> IsCompletedEmpty(c) || IsTerminalFailed(c))
    ensures Tracks(ExcludeOne(c, numbers, reason), owner)
  {
  }

  lemma QuietKeepsAt(chunks: seq<Chunk>, numbers: set<int>, reason: ExclusionReason, owned: seq<seq<nat>>, n: int)
    requires TracksAt(chunks, owned, n) && (n in numbers ==> QuietAt(chunks, n))
    ensures SameTranscript(chunks, Excluded(chunks, numbers, reason), n)
    ensures TracksAt(Excluded(chunks, numbers, reason), owned, n)
  {
    ExcludedLookup(chunks, numbers, reason, n);
    if Lookup(chunks, n).Some? {
      LookupNumber(chunks, n);
      QuietTracks(Lookup(chunks, n).value, FirstOwner(owned, n), numbers, reason);
    }
  }

  lemma QuietKeepsTracking(db: Db, numbers: set<int>, reason: ExclusionReason, k: Core)
    requires Tracking(db, k) && OnlyQuiet(db.chunks, numbers)
    ensures Tracking(MarkExcluded(db, numbers, reason), k) && LineOf(MarkExcluded(db, numbers, reason)) == LineOf(db)
  {
    var after, owned := Excluded(db.chunks, numbers, reason), k.owned;
    ExcludedOrdered(db.chunks, numbers, reason);
    forall n: int
      ensures SameTranscript(db.chunks, after, n)
      ensures TracksAt(after, owned, n)
    {
      assert TracksAt(db.chunks, owned, n);
      assert n in numbers ==> QuietAt(db.chunks, n);
      QuietKeepsAt(db.chunks, numbers, reason, owned, n);
    }
    LineOfSame(db.chunks, after, FirstSequence(db.conversation));
  }

  lemma StillQuiet(chunks: seq<Chunk>, numbers: set<int>, reason: ExclusionReason, others: set<int>)
    requires OnlyQuiet(chunks, others)
    ensures OnlyQuiet(Excluded(chunks, numbers, reason), others)
  {
    forall n | n in others
      ensures QuietAt(Excluded(chunks, numbers, reason), n)
    {
      ExcludedLookup(chunks, numbers, reason, n);
      assert QuietAt(chunks, n);
    }
  }

  lemma QuietTwice(db: Db, first: set<int>, why: ExclusionReason, second: set<int>, because: ExclusionReason, k: Core)
    requires Tracking(db, k) && OnlyQuiet(db.chunks, first) && OnlyQuiet(db.chunks, second)
    ensures var after := MarkExcluded(MarkExcluded(db, first, why), second, because);
            Tracking(after, k) && LineOf(after) == LineOf(db)
  {
    QuietKeepsTracking(db, first, why, k);
    StillQuiet(db.chunks, first, why, second);
    QuietKeepsTracking(MarkExcluded(db, first, why), second, because, k);
  }

  // The marks a call makes before it builds windows.
  lemma PreparedTracks(db: Db, k: Core)
    requires Tracking(db, k)
    ensures var prepared := Prepared(db, PlanOf(db), None); Tracking(prepared, k) && LineOf(prepared) == LineOf(db)
  {
    var plan, owned := PlanOf(db), k.owned;
    var failed := FailedNumbers(UpTo(db.chunks, None), plan.start, plan.skippable);
    UpToOrdered(db.chunks, None, Top(db.chunks) + 1);
    forall n | n in failed
      ensures QuietAt(db.chunks, n)
    {
      FailedLookup(UpTo(db.chunks, None), plan.start, plan.skippable, n);
      SkippableIsQuiet(db, owned, n);
    }
    forall n | n in Leading(plan)
      ensures QuietAt(db.chunks, n)
    {
      LeadingFacts(db, None, {}, n);
      SkippableIsQuiet(db, owned, n);
    }
    QuietTwice(db, failed, SttFailure, Leading(plan), EmptyTranscript, k);
  }

  function Ready(db: Db): Db {
    HoleMarked(Prepared(db, PlanOf(db), None), PlanOf(db), Rest(PlanOf(db)))
  }

  lemma ReadyTracks(db: Db, k: Core)
    requires Tracking(db, k) && Unblocked(db)
    ensures Tracking(Ready(db), k) && LineOf(Ready(db)) == LineOf(db) && Ready(db).windows == db.windows
  {
    var plan, owned := PlanOf(db), k.owned;
    var prepared, hole := Prepared(db, plan, None), Hole(plan.start, Rest(plan));
    PreparedTracks(db, k);
    forall n | n in hole
      ensures QuietAt(prepared.chunks, n)
    {
      SkippableIsQuiet(db, owned, n);
      ReadyOnlyMarks(db, None, {}, n);
    }
    QuietTwice(prepared, hole - plan.present, SequenceMissing, hole * plan.present, SttFailure, k);
  }

  // ----- the windows a call stores

  predicate SpeaksAt(chunks: seq<Chunk>, n: int) {
    Lookup(chunks, n).Some? ==> IsCompletedUseful(Lookup(chunks, n).value)
  }

  lemma ClaimTracks(c: Chunk, owner: Option<nat>, owned: set<int>, skipped: set<int>, id: nat, reason: ExclusionReason)
    requires Tracks(c, owner)
    requires c.speech.sequence in owned ==> IsCompletedUseful(c)
    requires c.speech.sequence in skipped ==> IsCompletedEmpty(c) || IsTerminalFailed(c)
    ensures Tracks(ExcludeOne(ClaimOne(c, owned, id), skipped, reason),
                   if owner.Some? then owner else if c.speech.sequence in owned then Some(id) else None)
  {
  }

  lemma CreateOneTracks(db: Db, b: Built, deferred: bool, owned: seq<seq<nat>>, n: int)
    requires |db.windows| == |owned| && InOrder(Docs(db.windows) + [b.window]) && TracksAt(db.chunks, owned, n)
    requires n in Numbers(b.owned) ==> SpeaksAt(db.chunks, n)
    requires n in Numbers(b.skipped) ==> QuietAt(db.chunks, n)
    ensures TracksAt(CreateWindow(db, b, deferred).chunks, owned + [b.owned], n)
  {
    StoredAppends(db.windows, b, deferred);
    ClaimedLookup(db.chunks, Numbers(b.owned), |db.windows|, n);
    ExcludedLookup(Claimed(db.chunks, Numbers(b.owned), |db.windows|), Numbers(b.skipped), EmptyTranscript, n);
    OwnerSnoc(owned, b.owned, n);
    if Lookup(db.chunks, n).Some? {
      LookupNumber(db.chunks, n);
      ClaimTracks(Lookup(db.chunks, n).value, FirstOwner(owned, n), Numbers(b.owned), Numbers(b.skipped), |db.windows|,
                  EmptyTranscript);
    }
  }

  lemma CreatedCount(db: Db, built: seq<Built>, deferred: bool)
    requires InOrder(Docs(db.windows) + Windows(built))
    ensures |CreateWindows(db, built, deferred).windows| == |db.windows| + |built|
  {
    CreatedAppends(db, built, deferred);
  }

  // The list of windows to build without the last one.
  lemma WithoutLast(db: Db, built: seq<Built>, deferred: bool)
    requires built != [] && InOrder(Docs(db.windows) + Windows(built))
    ensures var init, b := built[..|built| - 1], built[|built| - 1];
            && InOrder(Docs(db.windows) + Windows(init))
            && InOrder(Docs(CreateWindows(db, init, deferred).windows) + [b.window])
  {
    var init, b := built[..|built| - 1], built[|built| - 1];
    Assoc(Docs(db.windows), Windows(init), [b.window]);
    InOrderInit(Docs(db.windows) + Windows(init), b.window);
    CreatedAppends(db, init, deferred);
  }

  lemma {:induction false} CreatedTracks(db: Db, built: seq<Built>, deferred: bool, owned: seq<seq<nat>>, n: int)
    requires |db.windows| == |owned| && InOrder(Docs(db.windows) + Windows(built)) && TracksAt(db.chunks, owned, n)
    requires n in OwnedSet(built) ==> SpeaksAt(db.chunks, n)
    requires n in SkippedSet(built) ==> QuietAt(db.chunks, n)
    ensures TracksAt(CreateWindows(db, built, deferred).chunks, owned + WindowPartition.Owned(built), n)
  {
    if built == [] {
      EmptyRight(owned);
    } else {
      var init, b := built[..|built| - 1], built[|built| - 1];
      WithoutLast(db, built, deferred);
      CreatedTracks(db, init, deferred, owned, n);
      CreatedCount(db, init, deferred);
      OwnedSize(init);
      CreatedOnlyMarks(db, init, deferred, n);
      CreateOneTracks(CreateWindows(db, init, deferred), b, deferred, owned + WindowPartition.Owned(init), n);
      Assoc(owned, WindowPartition.Owned(init), [b.owned]);
    }
  }

  lemma {:induction false} OwnedSize(built: seq<Built>)
    ensures |WindowPartition.Owned(built)| == |built|
  {
    if built != [] {
      OwnedSize(built[..|built| - 1]);
    }
  }

  lemma SliceJoin<T>(a: seq<T>, i: nat, j: nat)
    requires i <= j <= |a|
    ensures a[..j] + a[j..] == a && a[i..j] + a[j..] == a[i..]
  {
  }

  lemma StoredIsBefore(k: Core)
    ensures WindowCore.Stored(k) == Before(k, Begun(k.overlap))
  {
    EmptyRight(k.owned);
    EmptyRight(k.lists);
  }

  // The core of all that is said so far, from the stored windows and what is new.
  lemma RestartedCore(cfg: Settings, done: seq<Speech>, more: seq<Speech>)
    requires CostsSomething(cfg, more)
    ensures var k := CoreAfter(cfg, done);
            CoreAfter(cfg, done + more) ==
            Before(k, CoreSettle(cfg, CoreRun(cfg, Begun(k.overlap), k.mine + more)))
  {
    var k := CoreAfter(cfg, done);
    var restarted := Begun(k.overlap);
    RestartIsTransparent(cfg, done, more, []);
    StoredIsBefore(k);
    RunBefore(cfg, k, restarted, k.mine + more);
    SettleBefore(cfg, k, CoreRun(cfg, restarted, k.mine + more));
  }

  lemma CoreOfCall(cfg: Settings, done: seq<Speech>, line: seq<Speech>, k: Core, n0: nat)
    requires done <= line && n0 <= |done| && k == CoreAfter(cfg, done) && k.mine == line[n0..|done|] && CostsSomething(cfg, line)
    ensures CoreAfter(cfg, line) == Before(k, CoreSettle(cfg, CoreRun(cfg, Begun(k.overlap), line[n0..])))
  {
    var more := line[|done|..];
    SliceJoin(line, n0, |done|);
    assert done + more == line;
    RestartedCore(cfg, done, more);
  }

  lemma LastBuilt(cfg: Settings, built: seq<Built>, first: seq<Speech>, startIndex: nat, segments: seq<seq<Speech>>)
    requires Chained(cfg, built, first, startIndex, segments) && built != []
    ensures var b := built[|built| - 1];
            && b.owned != [] && b.window.sequenceEnd == b.owned[|b.owned| - 1]
            && b.window.overlapStart == FirstNumber(OverlapAfter(cfg, built, first, segments))
  {
    var n := |built| - 1;
    var overlap := OverlapAfter(cfg, built[..n], first, segments[..n]);
    ChainedNonempty(cfg, built, first, startIndex, segments);
    WindowMarks(cfg, built[n], overlap, segments[n], startIndex + n);
    SequencesAt(Useful(segments[n]), |Useful(segments[n])| - 1);
  }

  lemma AppendedMatch(windows: seq<StoredWindow>, after: seq<StoredWindow>, built: seq<Built>, k: Core, next: Core)
    requires LastMatches(windows, k) && windows <= after && Docs(after) == Docs(windows) + Windows(built)
    requires |next.owned| == |k.owned| + |built|
    requires built == [] ==> next.owned == k.owned && next.overlap == k.overlap
    requires built != [] ==>
               var b := built[|built| - 1];
               && b.owned != [] && b.window.sequenceEnd == b.owned[|b.owned| - 1]
               && next.owned[|next.owned| - 1] == b.owned && b.window.overlapStart == FirstNumber(next.overlap)
    ensures LastMatches(after, next)
  {
    if built != [] {
      LastStoredDoc(after);
      LastWindowDoc(built);
    }
  }

  lemma {:induction false} WindowHolds(cfg: Settings, b: Built, overlap: seq<Speech>, segment: seq<Speech>, index: nat)
    requires WindowOk(cfg, b, overlap, segment, index) && !b.window.isFinalPartial
    ensures HoldsList(cfg, b.window, overlap + Useful(segment), index)
  {
  }

  // The windows of a call hold the chunks of its core.
  lemma {:induction false} RecordedMore(cfg: Settings, docs: seq<Window>, lists: seq<seq<Speech>>, built: seq<Built>,
                                        first: seq<Speech>, segments: seq<seq<Speech>>)
    requires Recorded(cfg, docs, lists) && Chained(cfg, built, first, |docs|, segments) && NoneFinal(built)
    ensures Recorded(cfg, docs + Windows(built), lists + Wholes(cfg, built, first, segments))
  {
    if built == [] {
      EmptyRight(docs);
      EmptyRight(lists);
    } else {
      var n := |built| - 1;
      var wholes, overlap := Wholes(cfg, built[..n], first, segments[..n]), OverlapAfter(cfg, built[..n], first, segments[..n]);
      RecordedMore(cfg, docs, lists, built[..n], first, segments[..n]);
      WindowHolds(cfg, built[n], overlap, segments[n], |docs| + n);
      RecordedSnoc(cfg, docs + Windows(built[..n]), lists + wholes, built[n].window, overlap + Useful(segments[n]));
      Assoc(docs, Windows(built[..n]), [built[n].window]);
      Assoc(lists, wholes, [overlap + Useful(segments[n])]);
    }
  }

  // Stored windows that hold the same chunks differ only in what they say of
  // their closing and of empty chunks.
  predicate SameDoc(v: Window, w: Window) {
    w == v.(closeReason := w.closeReason, sequenceCount := w.sequenceCount, emptyChunkCount := w.emptyChunkCount,
    wallClockSpanMs := w.wallClockSpanMs)
  }

  lemma {:induction false} SameHeld(cfg: Settings, v: Window, w: Window, all: seq<Speech>, index: nat)
    requires HoldsList(cfg, v, all, index) && HoldsList(cfg, w, all, index)
    ensures SameDoc(v, w)
  {
  }

  lemma {:induction false} SameRecorded(cfg: Settings, a: seq<Window>, b: seq<Window>, lists: seq<seq<Speech>>, i: nat)
    requires Recorded(cfg, a, lists) && Recorded(cfg, b, lists) && i < |a|
    ensures i < |b| && SameDoc(a[i], b[i])
  {
    var n := |a| - 1;
    if i == n {
      SameHeld(cfg, a[n], b[n], lists[n], n);
    } else {
      SameRecorded(cfg, a[..n], b[..n], lists[..n], i);
    }
  }
}

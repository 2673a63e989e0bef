// Deciding when a stopped conversation is ready: every expected sequence number
// is accounted for, and a final close leaves nothing out
// (services/conversation/finalization.py).

module Finalization {
  import opened Seqs
  import opened Text
  import opened Models
  import opened Windowing
  import opened Store
  import opened Incremental
  import opened Lookups
  import opened ForcedClose
  import opened WindowOrder

  // ----- readers

  predicate IsPendingOrProcessing(c: Chunk) {
    c.stt.SttPending? || c.stt.SttProcessing?
  }

  predicate IsRetryableFailed(c: Chunk) {
    c.stt.SttFailed? && !IsTerminalFailed(c)
  }

  function Count(chunks: seq<Chunk>, holds: Chunk -> bool): nat {
    if chunks == [] then 0
    else if holds(chunks[|chunks| - 1]) then Count(chunks[..|chunks| - 1], holds) + 1
    else Count(chunks[..|chunks| - 1], holds)
  }

  function CountWindows(windows: seq<StoredWindow>, holds: StoredWindow -> bool): nat {
    if windows == [] then 0
    else if holds(windows[|windows| - 1]) then CountWindows(windows[..|windows| - 1], holds) + 1
    else CountWindows(windows[..|windows| - 1], holds)
  }

  // `detect_missing_sequences`: the numbers of `range(first, high)` that are not present.
  function Missing(present: set<int>, first: nat, high: int): (r: seq<int>)
    decreases if first < high then high - first else 0
  {
    if high <= first then []
    else if high - 1 in present then Missing(present, first, high - 1)
    else Missing(present, first, high - 1) + [high - 1]
  }

  function IntNumbers(list: seq<int>): set<int> {
    if list == [] then {} else IntNumbers(list[..|list| - 1]) + {list[|list| - 1]}
  }

  lemma {:induction false} MissingAre(present: set<int>, first: nat, high: int, n: int)
    ensures n in IntNumbers(Missing(present, first, high)) <==> first <= n < high && n !in present
    decreases if first < high then high - first else 0
  {
    if first < high {
      MissingAre(present, first, high - 1, n);
      Snoc(Missing(present, first, high - 1), high - 1);
    }
  }

  // ----- readiness

  datatype Accounting = Accounting(
    expectedSequences: nat,
    accountedSequences: nat,
    missingSequences: seq<int>,
    emptyTranscripts: nat,
    permanentFailures: nat,
    pendingTranscripts: nat,
    retryingSequences: nat,
    validTranscripts: nat,
    validWindowed: nat,
    validExcluded: nat,
    validUnwindowed: nat,
    windowsCompleted: nat,
    incompleteWindows: nat,
    artifactPersistenceGaps: nat,
    unresolvedExpected: nat,
    terminalSequences: nat
  )

  datatype Readiness = Readiness(skippable: set<int>, unresolved: bool, accounting: Accounting)

  predicate IsUsefulUnwindowed(c: Chunk) {
    IsCompletedUseful(c) && c.windowId.None? && c.exclusion.None?
  }

  predicate IsUsefulExcluded(c: Chunk) {
    IsCompletedUseful(c) && c.exclusion.Some?
  }

  predicate IsUsefulWindowed(c: Chunk) {
    IsCompletedUseful(c) && c.windowId.Some?
  }

  predicate IsGap(w: StoredWindow) {
    w.status.WindowCompleted? && !w.persistenceOk
  }

  predicate IsCompletedWindow(w: StoredWindow) {
    w.status.WindowCompleted?
  }

  predicate IsIncompleteWindow(w: StoredWindow) {
    !w.status.WindowCompleted?
  }

  function MissingFrom(db: Db, expectedLast: int): seq<int> {
    Missing(PresentNumbers(db.chunks), FirstSequence(db.conversation), expectedLast + 1)
  }

  function SessionReadiness(db: Db, expectedLast: int): Readiness {
    var first, missing := FirstSequence(db.conversation), MissingFrom(db, expectedLast);
    var timeout := db.conversation.missingIsTerminal;
    var pending, retryable := Count(db.chunks, IsPendingOrProcessing), Count(db.chunks, IsRetryableFailed);
    var permanent := Count(db.chunks, IsTerminalFailed) + if timeout then |missing| else 0;
    var useful, empty := Count(db.chunks, IsCompletedUseful), Count(db.chunks, IsCompletedEmpty);
    Readiness(
      SkippableNumbers(db.chunks) + (if timeout then IntNumbers(missing) else {}),
      pending > 0 || retryable > 0 || (missing != [] && !timeout),
      Accounting(
        if expectedLast - first + 1 > 0 then expectedLast - first + 1 else 0,
        |db.chunks| + (if timeout then |missing| else 0),
        missing, empty, permanent, pending, retryable, useful,
        Count(db.chunks, IsUsefulWindowed), Count(db.chunks, IsUsefulExcluded), Count(db.chunks, IsUsefulUnwindowed),
        CountWindows(db.windows, IsCompletedWindow), CountWindows(db.windows, IsIncompleteWindow),
        CountWindows(db.windows, IsGap),
        pending + retryable + (if timeout then 0 else |missing|),
        useful + empty + permanent))
  }

  // ----- conservation

  lemma {:induction false} EveryChunkIsCounted(chunks: seq<Chunk>)
    ensures Count(chunks, IsCompletedUseful) + Count(chunks, IsCompletedEmpty) + Count(chunks, IsTerminalFailed)
            + Count(chunks, IsRetryableFailed) + Count(chunks, IsPendingOrProcessing) == |chunks|
  {
    if chunks != [] {
      EveryChunkIsCounted(chunks[..|chunks| - 1]);
    }
  }

  lemma {:induction false} MissingWithout(present: set<int>, x: int, first: nat, high: int)
    requires x !in present
    ensures |Missing(present + {x}, first, high)| == |Missing(present, first, high)| - if first <= x < high then 1 else 0
    decreases if first < high then high - first else 0
  {
    if first < high {
      MissingWithout(present, x, first, high - 1);
    }
  }

  lemma {:induction false} MissingNothing(first: nat, high: int)
    ensures |Missing({}, first, high)| == if first < high then high - first else 0
    decreases if first < high then high - first else 0
  {
    if first < high {
      MissingNothing(first, high - 1);
    }
  }

  // How many chunks have a number outside `range(first, high)`.
  function Outside(chunks: seq<Chunk>, first: nat, high: int): nat {
    if chunks == [] then 0
    else if first <= chunks[|chunks| - 1].speech.sequence < high then Outside(chunks[..|chunks| - 1], first, high)
    else Outside(chunks[..|chunks| - 1], first, high) + 1
  }

  lemma {:induction false} MissingComplements(chunks: seq<Chunk>, first: nat, high: int)
    requires Ordered(chunks)
    ensures |Missing(PresentNumbers(chunks), first, high)| + |chunks| ==
            (if first < high then high - first else 0) + Outside(chunks, first, high)
  {
    if chunks == [] {
      MissingNothing(first, high);
    } else {
      var init, x := chunks[..|chunks| - 1], chunks[|chunks| - 1].speech.sequence;
      MissingComplements(init, first, high);
      PresentLookup(init, x);
      LookupAbove(init, x);
      MissingWithout(PresentNumbers(init), x, first, high);
    }
  }

  // What is settled and what is open make up what is expected, plus the chunks
  // that are outside the expected range; nothing is unresolved when nothing is open.
  lemma AccountingIsConserved(db: Db, expectedLast: int)
    requires Ordered(db.chunks)
    ensures var a := SessionReadiness(db, expectedLast).accounting;
            && a.terminalSequences + a.unresolvedExpected ==
               a.expectedSequences + Outside(db.chunks, FirstSequence(db.conversation), expectedLast + 1)
            && (SessionReadiness(db, expectedLast).unresolved <==> a.unresolvedExpected != 0)
  {
    EveryChunkIsCounted(db.chunks);
    MissingComplements(db.chunks, FirstSequence(db.conversation), expectedLast + 1);
  }

  lemma {:induction false} NoneCounted(chunks: seq<Chunk>, holds: Chunk -> bool, n: int)
    requires Count(chunks, holds) == 0 && Lookup(chunks, n).Some?
    ensures !holds(Lookup(chunks, n).value)
  {
    if chunks[|chunks| - 1].speech.sequence != n {
      NoneCounted(chunks[..|chunks| - 1], holds, n);
    }
  }

  // ----- the final close

  // A useful chunk that has no place: it is neither in a window nor excluded.
  // Readiness counts these as unwindowed, whether they are processed or not.
  predicate Unplaced(db: Db, n: int) {
    var found := Lookup(db.chunks, n);
    found.Some? && IsUsefulUnwindowed(found.value)
  }

  // A useful chunk that was completed after it had been marked, so that it
  // neither waits for a window nor may be skipped.
  predicate Stranded(db: Db, n: int) {
    var found := Lookup(db.chunks, n);
    found.Some? && IsCompletedUseful(found.value) && found.value.exclusion.None? && !found.value.processing.Unprocessed?
  }

  // A number of the expected range, when nothing is unresolved.
  lemma ResolvedNumber(db: Db, expectedLast: int, n: int)
    requires Ordered(db.chunks) && !SessionReadiness(db, expectedLast).unresolved
    requires FirstSequence(db.conversation) <= n <= expectedLast
    ensures n in SessionReadiness(db, expectedLast).skippable || IsCompletedUsefulAt(db, n)
  {
    SkippableLookup(db.chunks, n);
    PresentLookup(db.chunks, n);
    MissingAre(PresentNumbers(db.chunks), FirstSequence(db.conversation), expectedLast + 1, n);
    if Lookup(db.chunks, n).Some? {
      NoneCounted(db.chunks, IsPendingOrProcessing, n);
      NoneCounted(db.chunks, IsRetryableFailed, n);
    }
  }

  predicate IsCompletedUsefulAt(db: Db, n: int) {
    Lookup(db.chunks, n).Some? && IsCompletedUseful(Lookup(db.chunks, n).value)
  }

  // When nothing is unresolved, only a stranded chunk stops the walk.
  lemma OnlyStrandedStops(db: Db, expectedLast: int, n: int)
    requires Ordered(db.chunks) && !SessionReadiness(db, expectedLast).unresolved
    requires ExpectedStart(db) <= n <= expectedLast
    ensures var extra := SessionReadiness(db, expectedLast).skippable;
            var plan := MakePlan(db, Some(expectedLast), extra);
            Passable(plan.waiting, SkippableNow(plan, Rest(plan), true), n) <==> !Stranded(db, n)
  {
    var extra := SessionReadiness(db, expectedLast).skippable;
    ResolvedNumber(db, expectedLast, n);
    PlanFacts(db, Some(expectedLast), extra, n);
    SkippableLookup(db.chunks, n);
    PresentLookup(db.chunks, n);
    MissingAre(PresentNumbers(db.chunks), FirstSequence(db.conversation), expectedLast + 1, n);
    if Lookup(db.chunks, n).Some? {
      LookupNumber(db.chunks, n);
    }
  }

  // What a final close needs to take a waiting chunk.
  ghost predicate Drainable(db: Db, n: int) {
    ExpectedStart(db) <= n && forall m :: ExpectedStart(db) <= m < n ==> !Stranded(db, m)
  }

  lemma DrainableReaches(db: Db, expectedLast: int, n: int)
    requires Ordered(db.chunks) && InOrder(Docs(db.windows)) && !SessionReadiness(db, expectedLast).unresolved
    requires Waiting(db, Some(expectedLast), n)
    ensures Reaches(db, Some(expectedLast), SessionReadiness(db, expectedLast).skippable, n) <==> Drainable(db, n)
  {
    var extra := SessionReadiness(db, expectedLast).skippable;
    var plan := MakePlan(db, Some(expectedLast), extra);
    LookupNumber(db.chunks, n);
    forall m | ExpectedStart(db) <= m < n
      ensures Passable(plan.waiting, SkippableNow(plan, Rest(plan), true), m) <==> !Stranded(db, m)
    {
      OnlyStrandedStops(db, expectedLast, m);
    }
    if ExpectedStart(db) <= n {
      NotCovered(db, Some(expectedLast), n);
    }
  }

  // After the final close nothing waits exactly when every chunk that waited
  // came after the last window, with no stranded chunk between.
  lemma FinalCloseDrains(cfg: Settings, db: Db, pipeline: bool, expectedLast: int)
    requires Ordered(db.chunks) && InOrder(Docs(db.windows)) && !SessionReadiness(db, expectedLast).unresolved
    ensures var extra := SessionReadiness(db, expectedLast).skippable;
            (forall n :: !Waiting(Close(cfg, db, true, pipeline, Some(expectedLast), extra), Some(expectedLast), n)) <==>
            (forall n :: Waiting(db, Some(expectedLast), n) ==> Drainable(db, n))
  {
    var extra := SessionReadiness(db, expectedLast).skippable;
    var after := Close(cfg, db, true, pipeline, Some(expectedLast), extra);
    forall n: int
      ensures Waiting(after, Some(expectedLast), n) <==> Waiting(db, Some(expectedLast), n) && !Drainable(db, n)
    {
      if Waiting(db, Some(expectedLast), n) {
        ForcedCloseTakes(cfg, db, pipeline, Some(expectedLast), extra, n);
        DrainableReaches(db, expectedLast, n);
      } else {
        NothingNewWaits(cfg, db, true, pipeline, Some(expectedLast), extra, n);
      }
    }
  }
}

// Closing the windows that are ready, from what is stored
// (services/conversation/incremental.py, `close_ready_windows`).

module Incremental {
  import opened Text
  import opened Models
  import opened Windowing
  import opened Store

  // ----- reading the stored chunks

  function UpTo(chunks: seq<Chunk>, through: Option<int>): seq<Chunk> {
    if chunks == [] then []
    else if through.None? || chunks[|chunks| - 1].speech.sequence <= through.value then
      UpTo(chunks[..|chunks| - 1], through) + [chunks[|chunks| - 1]]
    else UpTo(chunks[..|chunks| - 1], through)
  }

  predicate IsSkippable(c: Chunk) {
    c.exclusion.Some? || IsCompletedEmpty(c) || IsTerminalFailed(c)
  }

  function SkippableNumbers(chunks: seq<Chunk>): set<int> {
    if chunks == [] then {}
    else if IsSkippable(chunks[|chunks| - 1]) then SkippableNumbers(chunks[..|chunks| - 1]) + {chunks[|chunks| - 1].speech.sequence}
    else SkippableNumbers(chunks[..|chunks| - 1])
  }

  predicate IsUnwindowed(c: Chunk) {
    c.stt.SttCompleted? && c.processing.Unprocessed? && c.exclusion.None?
  }

  function Unwindowed(chunks: seq<Chunk>, start: nat): seq<Speech> {
    if chunks == [] then []
    else if IsUnwindowed(chunks[|chunks| - 1]) && chunks[|chunks| - 1].speech.sequence >= start then
      Unwindowed(chunks[..|chunks| - 1], start) + [chunks[|chunks| - 1].speech]
    else Unwindowed(chunks[..|chunks| - 1], start)
  }

  function UsefulNumbers(chunks: seq<Chunk>): set<int> {
    if chunks == [] then {}
    else if IsCompletedUseful(chunks[|chunks| - 1]) then
      UsefulNumbers(chunks[..|chunks| - 1]) + {chunks[|chunks| - 1].speech.sequence}
    else UsefulNumbers(chunks[..|chunks| - 1])
  }

  function PresentNumbers(chunks: seq<Chunk>): set<int> {
    if chunks == [] then {} else PresentNumbers(chunks[..|chunks| - 1]) + {chunks[|chunks| - 1].speech.sequence}
  }

  // FAILED chunks from `start` on that may be skipped.
  function FailedNumbers(chunks: seq<Chunk>, start: nat, skippable: set<int>): set<int> {
    if chunks == [] then {}
    else
      var c := chunks[|chunks| - 1];
      if c.speech.sequence >= start && c.stt.SttFailed? && c.speech.sequence in skippable then
        FailedNumbers(chunks[..|chunks| - 1], start, skippable) + {c.speech.sequence}
      else FailedNumbers(chunks[..|chunks| - 1], start, skippable)
  }

  // `range(low, high)`
  function Range(low: int, high: int): (r: set<int>)
    ensures forall n :: n in r <==> low <= n < high
    decreases if low < high then high - low else 0
  {
    if low >= high then {} else Range(low, high - 1) + {high - 1}
  }

  function CoveredNumbers(windows: seq<StoredWindow>): set<int> {
    if windows == [] then {}
    else
      var doc := windows[|windows| - 1].doc;
      CoveredNumbers(windows[..|windows| - 1]) + Range(doc.sequenceStart, doc.sequenceEnd + 1)
  }

  function ExpectedStart(db: Db): nat {
    if db.windows == [] then FirstSequence(db.conversation) else LastWindow(db.windows).doc.sequenceEnd + 1
  }

  // COMPLETED chunks between two numbers.
  function CompletedBetween(chunks: seq<Chunk>, start: nat, end: nat): seq<Speech> {
    if chunks == [] then []
    else
      var c := chunks[|chunks| - 1];
      if c.stt.SttCompleted? && start <= c.speech.sequence <= end then
        CompletedBetween(chunks[..|chunks| - 1], start, end) + [c.speech]
      else CompletedBetween(chunks[..|chunks| - 1], start, end)
  }

  // The chunks a new window repeats from the last stored one.
  function OverlapPrefix(db: Db): seq<Speech> {
    if db.windows == [] then []
    else
      var doc := LastWindow(db.windows).doc;
      if doc.overlapStart.None? then [] else CompletedBetween(db.chunks, doc.overlapStart.value, doc.sequenceEnd)
  }

  // ----- the empty chunks that come first

  function LeadingEmpties(reachable: seq<Speech>): seq<nat> {
    if reachable == [] || IsUseful(reachable[0]) then [] else [reachable[0].sequence] + LeadingEmpties(reachable[1..])
  }

  function LeadingSkippable(chunks: seq<Speech>, skippable: set<int>): seq<nat> {
    LeadingEmpties(Reachable(chunks, skippable))
  }

  function Without(chunks: seq<Speech>, numbers: set<int>): seq<Speech> {
    if chunks == [] then []
    else if chunks[|chunks| - 1].sequence in numbers then Without(chunks[..|chunks| - 1], numbers)
    else Without(chunks[..|chunks| - 1], numbers) + [chunks[|chunks| - 1]]
  }

  function EmptyNumbers(chunks: seq<Speech>): set<int> {
    Numbers(Sequences(Empties(chunks)))
  }

  // ----- the call

  // What the call has read: the first number not covered, the numbers it may
  // skip, the numbers that exist, and the chunks it can put into windows.
  datatype Plan = Plan(start: nat, skippable: set<int>, present: set<int>, waiting: seq<Speech>)

  function MakePlan(db: Db, through: Option<int>, extra: set<int>): Plan {
    var all := UpTo(db.chunks, through);
    Plan(ExpectedStart(db), extra + SkippableNumbers(all), PresentNumbers(all), Unwindowed(all, ExpectedStart(db)))
  }

  predicate AlreadyCovered(db: Db, force: bool, through: Option<int>) {
    var useful := UsefulNumbers(UpTo(db.chunks, through));
    force && useful != {} && useful <= CoveredNumbers(db.windows)
  }

  // The numbers between the first one expected and the first chunk that waits.
  function Hole(start: nat, rest: seq<Speech>): set<int> {
    if rest == [] then {} else Range(start, rest[0].sequence)
  }

  function SkippableNow(plan: Plan, rest: seq<Speech>, force: bool): set<int> {
    if force then plan.skippable + (Hole(plan.start, rest) - plan.present) else plan.skippable
  }

  function MarkExcluded(db: Db, numbers: set<int>, reason: ExclusionReason): Db {
    db.(chunks := Excluded(db.chunks, numbers, reason))
  }

  function Leading(plan: Plan): set<int> {
    Numbers(LeadingSkippable(plan.waiting, plan.skippable))
  }

  function Rest(plan: Plan): seq<Speech> {
    Without(plan.waiting, Leading(plan))
  }

  // Marks made before any window is built.
  function Prepared(db: Db, plan: Plan, through: Option<int>): Db {
    var failed := FailedNumbers(UpTo(db.chunks, through), plan.start, plan.skippable);
    MarkExcluded(MarkExcluded(db, failed, SttFailure), Leading(plan), EmptyTranscript)
  }

  // Marks for the numbers of a hole that may be skipped.
  function HoleMarked(db: Db, plan: Plan, rest: seq<Speech>): Db {
    var hole := Hole(plan.start, rest);
    MarkExcluded(MarkExcluded(db, hole - plan.present, SequenceMissing), hole * plan.present, SttFailure)
  }

  function BuiltFrom(cfg: Settings, db: Db, plan: Plan, force: bool): seq<Built> {
    Build(cfg, Rest(plan), |db.windows|, force, OverlapPrefix(db), SkippableNow(plan, Rest(plan), force))
  }

  // The windows are built and stored; a final call leaves no empty chunk over.
  function Windowed(cfg: Settings, db: Db, plan: Plan, force: bool, pipeline: bool): Db {
    var deferred := force && (pipeline || db.conversation.isExtension);
    var created := CreateWindows(db, BuiltFrom(cfg, db, plan, force), deferred);
    if force then MarkExcluded(created, EmptyNumbers(Rest(plan)), EmptyTranscript) else created
  }

  // The marks, and the windows unless a hole is in the way.
  function Proceed(cfg: Settings, db: Db, plan: Plan, force: bool, pipeline: bool, through: Option<int>): Db {
    var prepared := Prepared(db, plan, through);
    if !(Hole(plan.start, Rest(plan)) <= SkippableNow(plan, Rest(plan), force)) then prepared
    else Windowed(cfg, HoleMarked(prepared, plan, Rest(plan)), plan, force, pipeline)
  }

  function Close(cfg: Settings, db: Db, force: bool, pipeline: bool, through: Option<int>, extra: set<int>): Db {
    var plan := MakePlan(db, through, extra);
    if AlreadyCovered(db, force, through) then db
    else if plan.waiting == [] && plan.skippable == {} then db
    else Proceed(cfg, db, plan, force, pipeline, through)
  }

  lemma CloseCases(cfg: Settings, db: Db, force: bool, pipeline: bool, through: Option<int>, extra: set<int>)
    ensures var plan := MakePlan(db, through, extra);
            var prepared := Prepared(db, plan, through);
            var after := Close(cfg, db, force, pipeline, through, extra);
            after == db || after == prepared || after == Windowed(cfg, HoleMarked(prepared, plan, Rest(plan)), plan, force, pipeline)
  {
  }
}

// Cutting the reachable chunks of a conversation into windows
// (services/conversation/windowing.py).

module Windowing {
  import opened Text
  import opened Models
  import opened Transcript

  // `estimate` is the token estimator, `lower` the case folding of one character.
  datatype Settings = Settings(
    target: int,
    tokenMax: int,
    durationLimit: int,
    sparseWallMs: int,
    sparseMinTokens: int,
    overlapBudget: int,
    estimate: string -> nat,
    lower: char -> char
  )

  datatype Window = Window(
    index: nat,
    sequenceStart: nat,
    sequenceEnd: nat,
    text: string,
    tokenCount: nat,
    durationMs: Option<nat>,
    overlapStart: Option<nat>,
    isFinalPartial: bool,
    closeReason: CloseReason,
    sequenceCount: nat,
    emptyChunkCount: nat,
    nonEmptyChunkCount: nat,
    wallClockSpanMs: Option<nat>
  )

  // `runningTokens` is the value of the token counter when the window was
  // closed; the program does not store it.
  datatype Built = Built(window: Window, sequences: seq<nat>, owned: seq<nat>, skipped: seq<nat>, runningTokens: int)

  // ----- lists of chunks

  function Useful(chunks: seq<Speech>): seq<Speech> {
    if chunks == [] then []
    else if IsUseful(chunks[|chunks| - 1]) then Useful(chunks[..|chunks| - 1]) + [chunks[|chunks| - 1]]
    else Useful(chunks[..|chunks| - 1])
  }

  function Empties(chunks: seq<Speech>): seq<Speech> {
    if chunks == [] then []
    else if IsUseful(chunks[|chunks| - 1]) then Empties(chunks[..|chunks| - 1])
    else Empties(chunks[..|chunks| - 1]) + [chunks[|chunks| - 1]]
  }

  function Sequences(chunks: seq<Speech>): (r: seq<nat>)
    ensures |r| == |chunks|
  {
    if chunks == [] then [] else Sequences(chunks[..|chunks| - 1]) + [chunks[|chunks| - 1].sequence]
  }

  function Ids(chunks: seq<Speech>): set<nat> {
    if chunks == [] then {} else Ids(chunks[..|chunks| - 1]) + {chunks[|chunks| - 1].sequence}
  }

  function TotalDuration(chunks: seq<Speech>): nat {
    if chunks == [] then 0 else TotalDuration(chunks[..|chunks| - 1]) + chunks[|chunks| - 1].durationMs
  }

  // The sequence numbers of `chunks` that are not in `overlap`.
  function OwnedSequences(chunks: seq<Speech>, overlap: set<nat>): seq<nat> {
    if chunks == [] then []
    else if chunks[|chunks| - 1].sequence in overlap then OwnedSequences(chunks[..|chunks| - 1], overlap)
    else OwnedSequences(chunks[..|chunks| - 1], overlap) + [chunks[|chunks| - 1].sequence]
  }

  function OrNone(n: nat): Option<nat> {
    if n == 0 then None else Some(n)
  }

  // ----- helpers of the builder

  function UsefulTokens(cfg: Settings, chunks: seq<Speech>): nat {
    var text := WindowText(cfg.lower, chunks);
    if text == "" then 0 else cfg.estimate(text)
  }

  function LastUsefulText(cfg: Settings, chunks: seq<Speech>): string {
    if chunks == [] then ""
    else
      var raw := chunks[|chunks| - 1].text;
      if raw == "" then LastUsefulText(cfg, chunks[..|chunks| - 1]) else NormalizeChunkText(cfg.lower, raw, "")
  }

  // Where the tail of `chunks[..k]` starts, when `total` tokens follow it already.
  function TailStart(cfg: Settings, chunks: seq<Speech>, k: nat, total: nat): (start: nat)
    requires k <= |chunks|
    ensures start <= k
  {
    if k == 0 then 0
    else
      var sum := total + cfg.estimate(chunks[k - 1].text);
      if sum >= cfg.overlapBudget then k - 1 else TailStart(cfg, chunks, k - 1, sum)
  }

  // The chunks a window hands to its successor.
  function TailChunks(cfg: Settings, useful: seq<Speech>): seq<Speech> {
    if cfg.overlapBudget <= 0 then [] else useful[TailStart(cfg, useful, |useful|, 0)..]
  }

  function TextTokens(cfg: Settings, chunks: seq<Speech>): nat {
    if chunks == [] then 0
    else TextTokens(cfg, chunks[..|chunks| - 1]) + cfg.estimate(chunks[|chunks| - 1].text)
  }

  method TakeTail(cfg: Settings, useful: seq<Speech>) returns (tail: seq<Speech>)
    ensures tail == TailChunks(cfg, useful)
  {
    tail := [];
    if cfg.overlapBudget <= 0 || useful == [] {
      return;
    }
    var total: nat, k := 0, |useful|;
    while k > 0
      invariant 0 <= k <= |useful|
      invariant tail == useful[k..]
      invariant TailStart(cfg, useful, |useful|, 0) == TailStart(cfg, useful, k, total)
    {
      k := k - 1;
      total := total + cfg.estimate(useful[k].text);
      tail := [useful[k]] + tail;
      if total >= cfg.overlapBudget {
        break;
      }
    }
  }

  // No shorter suffix than `chunks[k..]` reaches the token budget.
  predicate ShortOfBudget(cfg: Settings, chunks: seq<Speech>, k: nat) {
    forall j :: k <= j < |chunks| ==> TextTokens(cfg, chunks[j..]) < cfg.overlapBudget
  }

  // The tail is the shortest suffix that reaches the token budget, or everything.
  lemma TailIsShortest(cfg: Settings, useful: seq<Speech>)
    requires cfg.overlapBudget > 0
    ensures var start := |useful| - |TailChunks(cfg, useful)|;
            && TailChunks(cfg, useful) == useful[start..]
            && (start > 0 ==> TextTokens(cfg, useful[start..]) >= cfg.overlapBudget)
            && ShortOfBudget(cfg, useful, start + 1)
  {
    TailStartIsLast(cfg, useful, |useful|);
  }

  lemma {:induction false} TextTokensFront(cfg: Settings, chunks: seq<Speech>)
    requires chunks != []
    ensures TextTokens(cfg, chunks) == cfg.estimate(chunks[0].text) + TextTokens(cfg, chunks[1..])
  {
    if |chunks| > 1 {
      TextTokensFront(cfg, chunks[..|chunks| - 1]);
      assert chunks[..|chunks| - 1][1..] == chunks[1..][..|chunks| - 2];
    }
  }

  lemma {:induction false} TailStartIsLast(cfg: Settings, useful: seq<Speech>, k: nat)
    requires cfg.overlapBudget > 0 && k <= |useful| && ShortOfBudget(cfg, useful, k)
    ensures var start := TailStart(cfg, useful, k, TextTokens(cfg, useful[k..]));
            && (start > 0 ==> TextTokens(cfg, useful[start..]) >= cfg.overlapBudget)
            && ShortOfBudget(cfg, useful, start + 1)
  {
    if k > 0 {
      TextTokensFront(cfg, useful[k - 1..]);
      assert useful[k - 1..][1..] == useful[k..];
      if TextTokens(cfg, useful[k - 1..]) < cfg.overlapBudget {
        TailStartIsLast(cfg, useful, k - 1);
      }
    }
  }

  // ----- the chunks that can be reached without crossing a hole

  function BySequence(chunks: seq<Speech>): map<nat, Speech> {
    if chunks == [] then map[]
    else BySequence(chunks[..|chunks| - 1])[chunks[|chunks| - 1].sequence := chunks[|chunks| - 1]]
  }

  function MinSequence(chunks: seq<Speech>): nat
    requires chunks != []
  {
    var last := chunks[|chunks| - 1].sequence;
    if |chunks| == 1 then last
    else if last < MinSequence(chunks[..|chunks| - 1]) then last
    else MinSequence(chunks[..|chunks| - 1])
  }

  function MaxSequence(chunks: seq<Speech>): nat
    requires chunks != []
  {
    var last := chunks[|chunks| - 1].sequence;
    if |chunks| == 1 then last
    else if last > MaxSequence(chunks[..|chunks| - 1]) then last
    else MaxSequence(chunks[..|chunks| - 1])
  }

  lemma {:induction false} BySequenceKeys(chunks: seq<Speech>)
    ensures forall n :: n in BySequence(chunks) ==> BySequence(chunks)[n] in chunks && BySequence(chunks)[n].sequence == n
    ensures forall i :: 0 <= i < |chunks| ==> chunks[i].sequence in BySequence(chunks)
  {
    if chunks != [] {
      BySequenceKeys(chunks[..|chunks| - 1]);
      assert chunks == chunks[..|chunks| - 1] + [chunks[|chunks| - 1]];
    }
  }

  lemma {:induction false} SequenceBounds(chunks: seq<Speech>)
    requires chunks != []
    ensures forall i :: 0 <= i < |chunks| ==> MinSequence(chunks) <= chunks[i].sequence <= MaxSequence(chunks)
    ensures MinSequence(chunks) in BySequence(chunks) && MaxSequence(chunks) in BySequence(chunks)
  {
    if |chunks| > 1 {
      SequenceBounds(chunks[..|chunks| - 1]);
    }
  }

  function Walk(table: map<nat, Speech>, skippable: set<int>, expected: nat, end: nat): seq<Speech>
    decreases end + 1 - expected
  {
    if expected > end then []
    else if expected in table then [table[expected]] + Walk(table, skippable, expected + 1, end)
    else if expected in skippable then Walk(table, skippable, expected + 1, end)
    else []
  }

  function Reachable(chunks: seq<Speech>, skippable: set<int>): seq<Speech> {
    if chunks == [] then []
    else Walk(BySequence(chunks), skippable, MinSequence(chunks), MaxSequence(chunks))
  }

  method IndexChunks(chunks: seq<Speech>) returns (table: map<nat, Speech>, start: nat, end: nat)
    requires chunks != []
    ensures table == BySequence(chunks) && start == MinSequence(chunks) && end == MaxSequence(chunks)
  {
    table, start, end := map[chunks[0].sequence := chunks[0]], chunks[0].sequence, chunks[0].sequence;
    for i := 1 to |chunks|
      invariant table == BySequence(chunks[..i])
      invariant start == MinSequence(chunks[..i]) && end == MaxSequence(chunks[..i])
    {
      assert chunks[..i + 1][..i] == chunks[..i];
      table := table[chunks[i].sequence := chunks[i]];
      start := if chunks[i].sequence < start then chunks[i].sequence else start;
      end := if chunks[i].sequence > end then chunks[i].sequence else end;
    }
    assert chunks[..|chunks|] == chunks;
  }

  method ReachablePrefix(chunks: seq<Speech>, skippable: set<int>) returns (result: seq<Speech>)
    ensures result == Reachable(chunks, skippable)
  {
    result := [];
    if chunks == [] {
      return;
    }
    var table, start, end := IndexChunks(chunks);
    var expected := start;
    while expected <= end
      invariant start <= expected
      invariant Walk(table, skippable, start, end) == result + Walk(table, skippable, expected, end)
      decreases if expected <= end then end + 1 - expected else 0
    {
      if expected in table {
        result := result + [table[expected]];
      } else if expected !in skippable {
        break;
      }
      expected := expected + 1;
    }
  }

  lemma {:induction false} WalkAscends(table: map<nat, Speech>, skippable: set<int>, expected: nat, end: nat)
    requires forall n :: n in table ==> table[n].sequence == n
    ensures var r := Walk(table, skippable, expected, end);
            Ascending(r) && forall c :: c in r ==> expected <= c.sequence <= end && c.sequence in table && table[c.sequence] == c
    decreases end + 1 - expected
  {
    if expected <= end && (expected in table || expected in skippable) {
      WalkAscends(table, skippable, expected + 1, end);
    }
  }

  lemma ReachableAscends(chunks: seq<Speech>, skippable: set<int>)
    ensures Ascending(Reachable(chunks, skippable))
    ensures forall c :: c in Reachable(chunks, skippable) ==> c in chunks
  {
    if chunks != [] {
      BySequenceKeys(chunks);
      WalkAscends(BySequence(chunks), skippable, MinSequence(chunks), MaxSequence(chunks));
    }
  }

  // `_ordered_unique`: ascending, the first chunk of every sequence number.
  function InsertUnique(chunks: seq<Speech>, c: Speech): seq<Speech> {
    if chunks == [] || chunks[|chunks| - 1].sequence < c.sequence then chunks + [c]
    else if chunks[|chunks| - 1].sequence == c.sequence then chunks
    else InsertUnique(chunks[..|chunks| - 1], c) + [chunks[|chunks| - 1]]
  }

  function OrderedUnique(chunks: seq<Speech>): seq<Speech> {
    if chunks == [] then []
    else InsertUnique(OrderedUnique(chunks[..|chunks| - 1]), chunks[|chunks| - 1])
  }

  lemma {:induction false} InsertUniqueAscends(chunks: seq<Speech>, c: Speech)
    requires Ascending(chunks)
    ensures Ascending(InsertUnique(chunks, c))
    ensures forall d :: d in InsertUnique(chunks, c) ==> d in chunks || d == c
  {
    var r := InsertUnique(chunks, c);
    if chunks != [] && chunks[|chunks| - 1].sequence > c.sequence {
      var init, last := chunks[..|chunks| - 1], chunks[|chunks| - 1];
      InsertUniqueAscends(init, c);
      assert forall d :: d in InsertUnique(init, c) ==> d.sequence < last.sequence;
      assert forall i :: 0 <= i < |r| - 1 ==> r[i] in InsertUnique(init, c);
    }
  }

  lemma {:induction false} OrderedUniqueAscends(chunks: seq<Speech>)
    ensures Ascending(OrderedUnique(chunks))
    ensures forall d :: d in OrderedUnique(chunks) ==> d in chunks
  {
    if chunks != [] {
      OrderedUniqueAscends(chunks[..|chunks| - 1]);
      InsertUniqueAscends(OrderedUnique(chunks[..|chunks| - 1]), chunks[|chunks| - 1]);
    }
  }

  lemma {:induction false} OrderedUniqueFixed(chunks: seq<Speech>)
    requires Ascending(chunks)
    ensures OrderedUnique(chunks) == chunks
  {
    if chunks != [] {
      OrderedUniqueFixed(chunks[..|chunks| - 1]);
    }
  }

  // ----- the builder, as a state machine

  datatype State = State(
    built: seq<Built>,
    overlapIds: set<nat>,
    current: seq<Speech>,
    skipped: seq<nat>,
    tokens: int,
    duration: nat,
    wall: nat,
    previous: string,
    index: nat,
    pending: seq<Speech>
  )

  function Start(cfg: Settings, overlap: seq<Speech>, startIndex: nat): State {
    State([], Ids(overlap), overlap, [], UsefulTokens(cfg, overlap), TotalDuration(overlap), TotalDuration(overlap),
          LastUsefulText(cfg, overlap), startIndex, [])
  }

  function WindowOf(cfg: Settings, s: State, useful: seq<Speech>, text: string, tail: seq<Speech>, reason: CloseReason,
                    final: bool): Window
    requires useful != []
  {
    var numbers := Sequences(useful);
    Window(
      s.index, numbers[0], numbers[|numbers| - 1], text, if text == "" then 0 else cfg.estimate(text),
      OrNone(s.duration), if tail == [] then None else Some(tail[0].sequence), final, reason,
      |numbers| + |s.skipped|, |s.skipped|, |useful|, OrNone(s.wall))
  }

  function Restart(cfg: Settings, s: State, tail: seq<Speech>): State {
    s.(overlapIds := Ids(tail), current := tail, skipped := [], tokens := UsefulTokens(cfg, tail),
    duration := TotalDuration(tail), wall := TotalDuration(tail), previous := LastUsefulText(cfg, tail))
  }

  // What a window hands on: nothing when it is the final one.
  function Handed(cfg: Settings, final: bool, useful: seq<Speech>): seq<Speech> {
    if final then [] else TailChunks(cfg, useful)
  }

  function Emit(cfg: Settings, s: State, useful: seq<Speech>, owned: seq<nat>, reason: CloseReason, final: bool): State
    requires useful != []
  {
    var tail := Handed(cfg, final, useful);
    var window := WindowOf(cfg, s, useful, WindowText(cfg.lower, useful), tail, reason, final);
    var built := Built(window, Sequences(useful), owned, s.skipped, s.tokens);
    Restart(cfg, s.(built := s.built + [built], index := s.index + 1), tail)
  }

  function Flush(cfg: Settings, s: State, reason: CloseReason, final: bool): State {
    var useful := Useful(s.current);
    var owned := OwnedSequences(useful, s.overlapIds);
    if useful == [] then s.(current := [], skipped := [], tokens := 0, duration := 0, wall := 0, previous := "")
    else if owned == [] then s
    else Emit(cfg, s, useful, owned, reason, final)
  }

  predicate OwnsSome(s: State) {
    OwnedSequences(Useful(s.current), s.overlapIds) != []
  }

  // The tokens of the line `[sequence] text` the chunk adds after `previous`.
  function LineCost(cfg: Settings, c: Speech, previous: string): nat {
    cfg.estimate(PrintLine(c.sequence, NormalizeChunkText(cfg.lower, c.text, previous)))
  }

  function ReasonToClose(cfg: Settings, s: State, c: Speech): Option<CloseReason> {
    var tokens := s.tokens + LineCost(cfg, c, s.previous);
    var wall := s.wall + TotalDuration(s.pending) + c.durationMs;
    if !OwnsSome(s) then None
    else if tokens > cfg.tokenMax && tokens > cfg.target then Some(TokenMax)
    else if tokens > cfg.target then Some(TokenTarget)
    else if cfg.durationLimit > 0 && s.duration + c.durationMs > cfg.durationLimit then Some(DurationMax)
    else if cfg.sparseWallMs > 0 && s.tokens >= cfg.sparseMinTokens && wall > cfg.sparseWallMs then Some(SparseTimeout)
    else None
  }

  function Append(s: State, c: Speech, text: string, tokens: nat): State {
    s.(skipped := s.skipped + Sequences(s.pending),
    pending := [],
    current := s.current + [c],
    tokens := s.tokens + tokens,
    duration := s.duration + c.durationMs,
    wall := s.wall + TotalDuration(s.pending) + c.durationMs,
    previous := text)
  }

  function Step(cfg: Settings, s: State, c: Speech): State {
    if !IsUseful(c) then s.(pending := s.pending + [c])
    else
      var reason := ReasonToClose(cfg, s, c);
      var closed := if reason.Some? then Flush(cfg, s, reason.value, false) else s;
      Append(closed, c, NormalizeChunkText(cfg.lower, c.text, s.previous), LineCost(cfg, c, s.previous))
  }

  function Run(cfg: Settings, s: State, chunks: seq<Speech>): State {
    if chunks == [] then s else Step(cfg, Run(cfg, s, chunks[..|chunks| - 1]), chunks[|chunks| - 1])
  }

  function AbsorbPending(s: State): State {
    s.(skipped := s.skipped + Sequences(s.pending), wall := s.wall + TotalDuration(s.pending), pending := [])
  }

  // Whether what is held at the end of a call becomes a window.
  function Settle(cfg: Settings, s: State, force: bool): State {
    if force || s.tokens >= cfg.target then Flush(cfg, s, if force then ForcedFinal else TokenTarget, force)
    else if s.tokens >= cfg.sparseMinTokens && cfg.sparseWallMs > 0 && s.wall >= cfg.sparseWallMs then
      Flush(cfg, s, SparseTimeout, false)
    else s
  }

  function Finish(cfg: Settings, s: State, force: bool): State {
    if OwnsSome(s) then Settle(cfg, AbsorbPending(s), force) else s
  }

  function Overlap(prefix: seq<Speech>): seq<Speech> {
    Useful(OrderedUnique(prefix))
  }

  function Build(cfg: Settings, chunks: seq<Speech>, startIndex: nat, force: bool, prefix: seq<Speech>, skippable: set<int>): seq<Built> {
    Finish(cfg, Run(cfg, Start(cfg, Overlap(prefix), startIndex), Reachable(chunks, skippable)), force).built
  }

  // ----- the builder, as the program runs it

  class WindowBuilder {
    const cfg: Settings
    var windows: seq<Built>
    var overlapIds: set<nat>
    var current: seq<Speech>
    var skippedInCurrent: seq<nat>
    var currentTokens: int
    var currentUsefulDuration: nat
    var currentWallClock: nat
    var previousText: string
    var index: nat
    var pendingEmpties: seq<Speech>

    ghost function Now(): State
      reads this
    {
      State(windows, overlapIds, current, skippedInCurrent, currentTokens, currentUsefulDuration, currentWallClock,
            previousText, index, pendingEmpties)
    }

    constructor (cfg: Settings, overlap: seq<Speech>, startIndex: nat)
      ensures this.cfg == cfg && Now() == Start(cfg, overlap, startIndex)
    {
      this.cfg := cfg;
      windows, overlapIds, current, skippedInCurrent := [], Ids(overlap), overlap, [];
      currentTokens, currentUsefulDuration := UsefulTokens(cfg, overlap), TotalDuration(overlap);
      currentWallClock, previousText := TotalDuration(overlap), LastUsefulText(cfg, overlap);
      index, pendingEmpties := startIndex, [];
    }

    method NewWindow(useful: seq<Speech>, text: string, tail: seq<Speech>, reason: CloseReason, finalPartial: bool)
      returns (window: Window)
      requires useful != []
      ensures window == WindowOf(cfg, Now(), useful, text, tail, reason, finalPartial)
    {
      var numbers := Sequences(useful);
      window := Window(
        index, numbers[0], numbers[|numbers| - 1], text, if text == "" then 0 else cfg.estimate(text),
        OrNone(currentUsefulDuration), if tail == [] then None else Some(tail[0].sequence), finalPartial, reason,
        |numbers| + |skippedInCurrent|, |skippedInCurrent|, |useful|, OrNone(currentWallClock));
    }

    method FlushCurrent(reason: CloseReason, finalPartial: bool)
      modifies this
      ensures Now() == Flush(cfg, old(Now()), reason, finalPartial)
    {
      var useful := Useful(current);
      if useful == [] {
        current, skippedInCurrent, currentTokens := [], [], 0;
        currentUsefulDuration, currentWallClock, previousText := 0, 0, "";
        return;
      }
      var owned := OwnedSequences(useful, overlapIds);
      if owned == [] {
        return;
      }
      EmitWindow(useful, owned, reason, finalPartial);
    }

    method EmitWindow(useful: seq<Speech>, owned: seq<nat>, reason: CloseReason, finalPartial: bool)
      requires useful != []
      modifies this
      ensures Now() == Emit(cfg, old(Now()), useful, owned, reason, finalPartial)
    {
      var text := PrintWindow(cfg.lower, useful);
      var numbers := Sequences(useful);
      var tail: seq<Speech> := [];
      if !finalPartial {
        tail := TakeTail(cfg, useful);
      }
      var window := NewWindow(useful, text, tail, reason, finalPartial);
      windows := windows + [Built(window, numbers, owned, skippedInCurrent, currentTokens)];
      index := index + 1;
      RestartFrom(tail);
    }

    method RestartFrom(tail: seq<Speech>)
      modifies this
      ensures Now() == Restart(cfg, old(Now()), tail)
    {
      var tokens, duration, text := UsefulTokens(cfg, tail), TotalDuration(tail), LastUsefulText(cfg, tail);
      current, overlapIds, skippedInCurrent := tail, Ids(tail), [];
      currentTokens, currentUsefulDuration, currentWallClock, previousText := tokens, duration, duration, text;
    }

    method Accept(chunk: Speech)
      modifies this
      ensures Now() == Step(cfg, old(Now()), chunk)
    {
      if !IsUseful(chunk) {
        pendingEmpties := pendingEmpties + [chunk];
        return;
      }
      var text := NormalizeChunk(cfg.lower, chunk.text, previousText);
      var tokens := cfg.estimate(PrintLine(chunk.sequence, text));
      var usefulDuration := chunk.durationMs;
      var emptySpan := TotalDuration(pendingEmpties);
      var ownedExists := OwnedSequences(Useful(current), overlapIds) != [];
      var maximum := if cfg.tokenMax > cfg.target then cfg.tokenMax else cfg.target;
      var reason: Option<CloseReason> := None;
      if ownedExists && currentTokens + tokens > maximum {
        reason := Some(TokenMax);
      } else if ownedExists && currentTokens + tokens > cfg.target {
        reason := Some(TokenTarget);
      } else if ownedExists && cfg.durationLimit > 0 && currentUsefulDuration + usefulDuration > cfg.durationLimit {
        reason := Some(DurationMax);
      } else if ownedExists && cfg.sparseWallMs > 0 && currentTokens >= cfg.sparseMinTokens
                && currentWallClock + emptySpan + usefulDuration > cfg.sparseWallMs {
        reason := Some(SparseTimeout);
      }
      assert reason == ReasonToClose(cfg, old(Now()), chunk);
      if reason.Some? {
        FlushCurrent(reason.value, false);
      }
      AppendUseful(chunk, text, tokens);
    }

    method AppendUseful(chunk: Speech, text: string, tokens: nat)
      modifies this
      ensures Now() == Append(old(Now()), chunk, text, tokens)
    {
      skippedInCurrent := skippedInCurrent + Sequences(pendingEmpties);
      currentWallClock := currentWallClock + TotalDuration(pendingEmpties);
      pendingEmpties := [];
      current := current + [chunk];
      currentTokens := currentTokens + tokens;
      currentUsefulDuration := currentUsefulDuration + chunk.durationMs;
      currentWallClock := currentWallClock + chunk.durationMs;
      previousText := text;
    }

    method AcceptAll(chunks: seq<Speech>)
      modifies this
      ensures Now() == Run(cfg, old(Now()), chunks)
    {
      for i := 0 to |chunks|
        invariant Now() == Run(cfg, old(Now()), chunks[..i])
      {
        assert chunks[..i + 1][..i] == chunks[..i];
        Accept(chunks[i]);
      }
      assert chunks[..|chunks|] == chunks;
    }

    method Close(forceFinal: bool)
      modifies this
      ensures Now() == Finish(cfg, old(Now()), forceFinal)
    {
      if OwnedSequences(Useful(current), overlapIds) == [] {
        return;
      }
      var trailingEmptyMs := TotalDuration(pendingEmpties);
      skippedInCurrent := skippedInCurrent + Sequences(pendingEmpties);
      currentWallClock := currentWallClock + trailingEmptyMs;
      pendingEmpties := [];
      assert OwnsSome(old(Now())) && Now() == AbsorbPending(old(Now()));
      if forceFinal || currentTokens >= cfg.target {
        FlushCurrent(if forceFinal then ForcedFinal else TokenTarget, forceFinal);
      } else if currentTokens >= cfg.sparseMinTokens && cfg.sparseWallMs > 0 && currentWallClock >= cfg.sparseWallMs {
        FlushCurrent(SparseTimeout, false);
      }
    }
  }

  method BuildReadyWindows(cfg: Settings, chunks: seq<Speech>, startIndex: nat, forceFinal: bool, overlapPrefix: seq<Speech>,
                           skippable: set<int>)
    returns (windows: seq<Built>)
    ensures windows == Build(cfg, chunks, startIndex, forceFinal, overlapPrefix, skippable)
  {
    var reachable := ReachablePrefix(chunks, skippable);
    if reachable == [] {
      NothingReachable(cfg, startIndex, forceFinal, overlapPrefix);
      return [];
    }
    var builder := new WindowBuilder(cfg, Overlap(overlapPrefix), startIndex);
    builder.AcceptAll(reachable);
    builder.Close(forceFinal);
    windows := builder.windows;
  }

  lemma {:induction false} OwnsNothing(chunks: seq<Speech>, ids: set<nat>)
    requires Ids(chunks) <= ids
    ensures OwnedSequences(chunks, ids) == []
  {
    if chunks != [] {
      assert chunks[|chunks| - 1] in chunks;
      assert Ids(chunks[..|chunks| - 1]) <= Ids(chunks);
      OwnsNothing(chunks[..|chunks| - 1], ids);
    }
  }

  lemma {:induction false} UsefulFixed(chunks: seq<Speech>)
    requires forall i :: 0 <= i < |chunks| ==> IsUseful(chunks[i])
    ensures Useful(chunks) == chunks && Empties(chunks) == []
  {
    if chunks != [] {
      UsefulFixed(chunks[..|chunks| - 1]);
    }
  }

  lemma {:induction false} UsefulOnly(chunks: seq<Speech>)
    ensures forall c :: c in Useful(chunks) <==> c in chunks && IsUseful(c)
    ensures forall c :: c in Empties(chunks) <==> c in chunks && !IsUseful(c)
  {
    if chunks != [] {
      UsefulOnly(chunks[..|chunks| - 1]);
      assert chunks == chunks[..|chunks| - 1] + [chunks[|chunks| - 1]];
    }
  }

  lemma NothingReachable(cfg: Settings, startIndex: nat, force: bool, prefix: seq<Speech>)
    ensures Finish(cfg, Run(cfg, Start(cfg, Overlap(prefix), startIndex), []), force).built == []
  {
    var ov := Overlap(prefix);
    UsefulOnly(OrderedUnique(prefix));
    UsefulFixed(ov);
    OwnsNothing(ov, Ids(ov));
  }
}

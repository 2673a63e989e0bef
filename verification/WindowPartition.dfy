// What a run of the builder produces: the windows cut the reachable chunks into
// consecutive segments, whatever the chunks and the settings are.

module WindowPartition {
  import opened Seqs
  import opened Text
  import opened Models
  import opened Transcript
  import opened Windowing
  import opened ChunkLists

  function Flatten(segments: seq<seq<Speech>>): seq<Speech> {
    if segments == [] then [] else Flatten(segments[..|segments| - 1]) + segments[|segments| - 1]
  }

  // The chunks the next window repeats, after windows that took `segments`.
  function OverlapAfter(cfg: Settings, built: seq<Built>, first: seq<Speech>, segments: seq<seq<Speech>>): seq<Speech>
    requires |built| == |segments|
  {
    if built == [] then first
    else
      var n := |built| - 1;
      Handed(cfg, built[n].window.isFinalPartial, OverlapAfter(cfg, built[..n], first, segments[..n]) + Useful(segments[n]))
  }

  // The useful chunks of every window: those it repeats, then those it owns.
  function Wholes(cfg: Settings, built: seq<Built>, first: seq<Speech>, segments: seq<seq<Speech>>): (r: seq<seq<Speech>>)
    requires |built| == |segments|
    ensures |r| == |built|
  {
    if built == [] then []
    else
      var n := |built| - 1;
      Wholes(cfg, built[..n], first, segments[..n])
      + [OverlapAfter(cfg, built[..n], first, segments[..n]) + Useful(segments[n])]
  }

  // A window repeats `overlap`, owns the useful chunks of its segment and skips the empty ones.
  ghost predicate ListsOk(b: Built, overlap: seq<Speech>, segment: seq<Speech>) {
    && Useful(segment) != []
    && b.sequences == Sequences(overlap + Useful(segment))
    && b.owned == Sequences(Useful(segment))
    && b.skipped == Sequences(Empties(segment))
  }

  // What is stored about it: `all` are its useful chunks, `empty` the skipped ones.
  ghost predicate RecordOk(cfg: Settings, w: Window, all: seq<Speech>, empty: seq<Speech>) {
    && all != []
    && w.text == WindowText(cfg.lower, all) && w.tokenCount == (if w.text == "" then 0 else cfg.estimate(w.text))
    && w.sequenceStart == all[0].sequence && w.sequenceEnd == all[|all| - 1].sequence
    && w.durationMs == OrNone(TotalDuration(all))
    && w.wallClockSpanMs == OrNone(TotalDuration(all) + TotalDuration(empty))
    && w.nonEmptyChunkCount == |all| && w.emptyChunkCount == |empty| && w.sequenceCount == |all| + |empty|
    && var handed := Handed(cfg, w.isFinalPartial, all);
    && w.overlapStart == if handed == [] then None else Some(handed[0].sequence)
  }

  // A window that owns two or more chunks respects both limits.
  ghost predicate LimitsOk(cfg: Settings, b: Built, all: seq<Speech>) {
    |b.owned| >= 2 ==> b.runningTokens <= cfg.target && (cfg.durationLimit > 0 ==> TotalDuration(all) <= cfg.durationLimit)
  }

  ghost predicate WindowOk(cfg: Settings, b: Built, overlap: seq<Speech>, segment: seq<Speech>, index: nat) {
    && b.window.index == index
    && ListsOk(b, overlap, segment)
    && RecordOk(cfg, b.window, overlap + Useful(segment), Empties(segment))
    && LimitsOk(cfg, b, overlap + Useful(segment))
  }

  ghost predicate Chained(cfg: Settings, built: seq<Built>, first: seq<Speech>, startIndex: nat, segments: seq<seq<Speech>>) {
    && |built| == |segments|
    && (built != [] ==>
          var n := |built| - 1;
          && Chained(cfg, built[..n], first, startIndex, segments[..n])
          && WindowOk(cfg, built[n], OverlapAfter(cfg, built[..n], first, segments[..n]), segments[n], startIndex + n))
  }

  // The builder while it repeats `overlap` and has taken the chunks `taken`.
  ghost predicate Holds(s: State, overlap: seq<Speech>, taken: seq<Speech>) {
    && s.overlapIds == Ids(overlap)
    && s.current == overlap + Useful(taken)
    && s.skipped == Sequences(Empties(taken))
    && s.duration == TotalDuration(s.current)
    && s.wall == s.duration + TotalDuration(Empties(taken))
  }

  ghost predicate WithinLimits(cfg: Settings, s: State, taken: seq<Speech>) {
    |Useful(taken)| >= 2 ==> s.tokens <= cfg.target && (cfg.durationLimit > 0 ==> s.duration <= cfg.durationLimit)
  }

  // The overlap lies below `floor`, the taken chunks at or above it.
  ghost predicate Split(overlap: seq<Speech>, taken: seq<Speech>, floor: nat) {
    AllUseful(overlap) && Below(overlap, floor) && From(taken, floor)
  }

  // ... and the pending chunks are empty and follow the taken ones.
  ghost predicate Held(cfg: Settings, s: State, overlap: seq<Speech>, taken: seq<Speech>, floor: nat) {
    && Holds(s, overlap, taken) && WithinLimits(cfg, s, taken) && Split(overlap, taken, floor)
    && Useful(s.pending) == [] && From(s.pending, floor)
  }

  // What the builder owns is exactly what it has taken.
  lemma HeldIsOwned(s: State, overlap: seq<Speech>, taken: seq<Speech>, floor: nat)
    requires Holds(s, overlap, taken) && Split(overlap, taken, floor)
    ensures Useful(s.current) == s.current
    ensures OwnedSequences(s.current, s.overlapIds) == Sequences(Useful(taken))
    ensures OwnsSome(s) <==> Useful(taken) != []
  {
    UsefulIsUseful(taken);
    UsefulFixed(s.current);
    UsefulFrom(taken, floor);
    OwnedAfterOverlap(overlap, Useful(taken), floor);
  }

  lemma {:induction false} UsefulFrom(chunks: seq<Speech>, low: int)
    requires From(chunks, low)
    ensures From(Useful(chunks), low)
  {
    if chunks != [] {
      UsefulFrom(chunks[..|chunks| - 1], low);
    }
  }

  lemma FlushEmits(cfg: Settings, s: State, overlap: seq<Speech>, taken: seq<Speech>, floor: nat, reason: CloseReason, final: bool)
    requires Holds(s, overlap, taken) && Split(overlap, taken, floor) && Useful(taken) != []
    ensures Flush(cfg, s, reason, final) == Emit(cfg, s, s.current, Sequences(Useful(taken)), reason, final)
  {
    HeldIsOwned(s, overlap, taken, floor);
  }

  lemma EmittedRecord(cfg: Settings, s: State, all: seq<Speech>, tail: seq<Speech>, empty: seq<Speech>, reason: CloseReason, final: bool)
    requires all != [] && s.duration == TotalDuration(all) && s.wall == s.duration + TotalDuration(empty)
    requires |s.skipped| == |empty| && tail == Handed(cfg, final, all)
    ensures RecordOk(cfg, WindowOf(cfg, s, all, WindowText(cfg.lower, all), tail, reason, final), all, empty)
  {
    SequencesAt(all, 0);
    SequencesAt(all, |all| - 1);
  }

  lemma EmittedHolds(cfg: Settings, s: State, all: seq<Speech>, owned: seq<nat>, reason: CloseReason, final: bool)
    requires all != []
    ensures Holds(Emit(cfg, s, all, owned, reason, final), Handed(cfg, final, all), [])
    ensures WithinLimits(cfg, Emit(cfg, s, all, owned, reason, final), [])
  {
    var tail := Handed(cfg, final, all);
    assert tail + [] == tail;
  }

  lemma EmittedWindow(cfg: Settings, s: State, overlap: seq<Speech>, taken: seq<Speech>, reason: CloseReason, final: bool)
    requires Holds(s, overlap, taken) && WithinLimits(cfg, s, taken) && Useful(taken) != []
    ensures var t := Emit(cfg, s, s.current, Sequences(Useful(taken)), reason, final);
            && t.built == s.built + [t.built[|s.built|]]
            && t.built[|s.built|].window.isFinalPartial == final
            && WindowOk(cfg, t.built[|s.built|], overlap, taken, s.index)
  {
    EmittedRecord(cfg, s, s.current, Handed(cfg, final, s.current), Empties(taken), reason, final);
  }

  lemma ChainedAppend(cfg: Settings, built: seq<Built>, first: seq<Speech>, startIndex: nat, segments: seq<seq<Speech>>, b: Built,
                      segment: seq<Speech>)
    requires Chained(cfg, built, first, startIndex, segments)
    requires WindowOk(cfg, b, OverlapAfter(cfg, built, first, segments), segment, startIndex + |built|)
    ensures Chained(cfg, built + [b], first, startIndex, segments + [segment])
    ensures OverlapAfter(cfg, built + [b], first, segments + [segment]) ==
            Handed(cfg, b.window.isFinalPartial, OverlapAfter(cfg, built, first, segments) + Useful(segment))
    ensures Flatten(segments + [segment]) == Flatten(segments) + segment
  {
    assert (built + [b])[..|built|] == built && (segments + [segment])[..|segments|] == segments;
  }

  lemma TailIsSuffix(cfg: Settings, final: bool, chunks: seq<Speech>)
    ensures |Handed(cfg, final, chunks)| <= |chunks|
    ensures Handed(cfg, final, chunks) == chunks[|chunks| - |Handed(cfg, final, chunks)|..]
  {
  }

  lemma HandedSplits(cfg: Settings, final: bool, overlap: seq<Speech>, taken: seq<Speech>, floor: nat, next: nat)
    requires Split(overlap, taken, floor) && floor <= next && Below(taken, next)
    ensures Split(Handed(cfg, final, overlap + Useful(taken)), [], next)
  {
    UsefulIsUseful(taken);
    UsefulWithin(taken, floor, next);
    TailIsSuffix(cfg, final, overlap + Useful(taken));
  }

  // Everything known of the builder: the windows took `segments`, it holds
  // `taken`, and together with the pending chunks these are `chunks`.
  ghost predicate Covers(cfg: Settings, s: State, first: seq<Speech>, startIndex: nat, segments: seq<seq<Speech>>,
                         taken: seq<Speech>, floor: nat, chunks: seq<Speech>)
  {
    && Chained(cfg, s.built, first, startIndex, segments)
    && s.index == startIndex + |s.built|
    && Held(cfg, s, OverlapAfter(cfg, s.built, first, segments), taken, floor)
    && Flatten(segments) + taken + s.pending == chunks
  }

  lemma FlushHeld(cfg: Settings, s: State, overlap: seq<Speech>, taken: seq<Speech>, floor: nat, next: nat, reason: CloseReason,
                  final: bool)
    requires Held(cfg, s, overlap, taken, floor) && Useful(taken) != []
    requires floor <= next && Below(taken, next) && From(s.pending, next)
    ensures var t := Flush(cfg, s, reason, final);
            && Held(cfg, t, Handed(cfg, final, overlap + Useful(taken)), [], next)
            && t.pending == s.pending && t.index == s.index + 1
            && |t.built| == |s.built| + 1 && t.built == s.built + [t.built[|s.built|]]
            && t.built[|s.built|].window.isFinalPartial == final
            && WindowOk(cfg, t.built[|s.built|], overlap, taken, s.index)
  {
    FlushEmits(cfg, s, overlap, taken, floor, reason, final);
    EmittedWindow(cfg, s, overlap, taken, reason, final);
    EmittedHolds(cfg, s, s.current, Sequences(Useful(taken)), reason, final);
    HandedSplits(cfg, final, overlap, taken, floor, next);
  }

  lemma FlushCovers(cfg: Settings, s: State, first: seq<Speech>, startIndex: nat, segments: seq<seq<Speech>>, taken: seq<Speech>,
                    floor: nat, chunks: seq<Speech>, next: nat, reason: CloseReason, final: bool)
    requires Covers(cfg, s, first, startIndex, segments, taken, floor, chunks) && Useful(taken) != []
    requires floor <= next && Below(taken, next) && From(s.pending, next)
    ensures Covers(cfg, Flush(cfg, s, reason, final), first, startIndex, segments + [taken], [], next, chunks)
  {
    var t := Flush(cfg, s, reason, final);
    FlushHeld(cfg, s, OverlapAfter(cfg, s.built, first, segments), taken, floor, next, reason, final);
    ChainedAppend(cfg, s.built, first, startIndex, segments, t.built[|s.built|], taken);
    EmptyRight(Flatten(segments) + taken);
  }

  // Taking the pending empty chunks and one useful chunk.
  lemma TakenGrows(taken: seq<Speech>, pending: seq<Speech>, c: Speech)
    requires Useful(pending) == [] && IsUseful(c)
    ensures Useful(taken + pending + [c]) == Useful(taken) + [c]
    ensures Empties(taken + pending + [c]) == Empties(taken) + pending
  {
    UsefulAppend(taken + pending, c);
    UsefulConcat(taken, pending);
    EmptiesConcat(taken, pending);
    NothingUseful(pending);
  }

  lemma AppendHolds(s: State, overlap: seq<Speech>, taken: seq<Speech>, more: seq<Speech>, c: Speech, text: string, tokens: nat)
    requires Holds(s, overlap, taken)
    requires Useful(more) == Useful(taken) + [c] && Empties(more) == Empties(taken) + s.pending
    ensures Holds(Append(s, c, text, tokens), overlap, more)
  {
    SequencesConcat(Empties(taken), s.pending);
    DurationConcat(Empties(taken), s.pending);
    assert s.current + [c] == overlap + Useful(more);
    assert (s.current + [c])[..|s.current|] == s.current;
  }

  ghost predicate Fits(cfg: Settings, s: State, c: Speech, tokens: nat) {
    s.tokens + tokens <= cfg.target && (cfg.durationLimit > 0 ==> s.duration + c.durationMs <= cfg.durationLimit)
  }

  lemma AppendHeld(cfg: Settings, s: State, overlap: seq<Speech>, taken: seq<Speech>, floor: nat, c: Speech, text: string, tokens: nat)
    requires Held(cfg, s, overlap, taken, floor)
    requires IsUseful(c) && floor <= c.sequence
    requires Useful(taken) != [] ==> Fits(cfg, s, c, tokens)
    ensures Held(cfg, Append(s, c, text, tokens), overlap, taken + s.pending + [c], floor)
    ensures Useful(taken + s.pending + [c]) != []
  {
    var more := taken + s.pending + [c];
    TakenGrows(taken, s.pending, c);
    AppendHolds(s, overlap, taken, more, c, text, tokens);
    FromAppend(s.pending, c, floor);
    SplitGrows(overlap, taken, s.pending + [c], floor);
    Assoc(taken, s.pending, [c]);
  }

  lemma SplitGrows(overlap: seq<Speech>, taken: seq<Speech>, more: seq<Speech>, floor: nat)
    requires Split(overlap, taken, floor) && From(more, floor)
    ensures Split(overlap, taken + more, floor)
  {
  }

  lemma StepEmpty(cfg: Settings, s: State, first: seq<Speech>, startIndex: nat, segments: seq<seq<Speech>>, taken: seq<Speech>,
                  floor: nat, chunks: seq<Speech>, c: Speech)
    requires Covers(cfg, s, first, startIndex, segments, taken, floor, chunks) && !IsUseful(c) && floor <= c.sequence
    ensures Covers(cfg, Step(cfg, s, c), first, startIndex, segments, taken, floor, chunks + [c])
  {
    SkipHeld(cfg, s, OverlapAfter(cfg, s.built, first, segments), taken, floor, c);
    Assoc(Flatten(segments) + taken, s.pending, [c]);
  }

  lemma SkipHeld(cfg: Settings, s: State, overlap: seq<Speech>, taken: seq<Speech>, floor: nat, c: Speech)
    requires Held(cfg, s, overlap, taken, floor) && !IsUseful(c) && floor <= c.sequence
    ensures Held(cfg, s.(pending := s.pending + [c]), overlap, taken, floor)
  {
    UsefulAppend(s.pending, c);
    FromAppend(s.pending, c, floor);
  }

  lemma TakeCovers(cfg: Settings, s: State, first: seq<Speech>, startIndex: nat, segments: seq<seq<Speech>>, taken: seq<Speech>,
                   floor: nat, chunks: seq<Speech>, c: Speech, text: string, tokens: nat)
    requires Covers(cfg, s, first, startIndex, segments, taken, floor, chunks)
    requires IsUseful(c) && floor <= c.sequence && (Useful(taken) != [] ==> Fits(cfg, s, c, tokens))
    ensures Covers(cfg, Append(s, c, text, tokens), first, startIndex, segments, taken + s.pending + [c], floor, chunks + [c])
    ensures Useful(taken + s.pending + [c]) != []
  {
    AppendHeld(cfg, s, OverlapAfter(cfg, s.built, first, segments), taken, floor, c, text, tokens);
    Regroup(Flatten(segments), taken, s.pending, [c]);
  }

  lemma CloseCovers(cfg: Settings, s: State, first: seq<Speech>, startIndex: nat, segments: seq<seq<Speech>>, taken: seq<Speech>,
                    floor: nat, chunks: seq<Speech>, c: Speech, reason: CloseReason)
    returns (floor': nat)
    requires Covers(cfg, s, first, startIndex, segments, taken, floor, chunks) && Useful(taken) != []
    requires Ascending(chunks + [c]) && floor <= c.sequence
    ensures Covers(cfg, Flush(cfg, s, reason, false), first, startIndex, segments + [taken], [], floor', chunks)
    ensures floor' <= c.sequence
  {
    floor' := NextFloor(Flatten(segments), taken, s.pending, c, floor);
    assert (s.pending + [c])[..|s.pending|] == s.pending;
    FlushCovers(cfg, s, first, startIndex, segments, taken, floor, chunks, floor', reason, false);
  }

  lemma StepUseful(cfg: Settings, s: State, first: seq<Speech>, startIndex: nat, segments: seq<seq<Speech>>, taken: seq<Speech>,
                   floor: nat, chunks: seq<Speech>, c: Speech)
    returns (segments': seq<seq<Speech>>, taken': seq<Speech>, floor': nat)
    requires Covers(cfg, s, first, startIndex, segments, taken, floor, chunks) && IsUseful(c)
    requires Ascending(chunks + [c]) && floor <= c.sequence
    ensures Covers(cfg, Step(cfg, s, c), first, startIndex, segments', taken', floor', chunks + [c])
    ensures Useful(taken') != [] && floor' <= c.sequence
    ensures var closes := ReasonToClose(cfg, s, c).Some?;
            && segments' == (if closes then segments + [taken] else segments)
            && taken' == (if closes then [] else taken) + s.pending + [c]
            && (closes ==> Useful(taken) != [])
  {
    var reason := ReasonToClose(cfg, s, c);
    var text, tokens := NormalizeChunkText(cfg.lower, c.text, s.previous), LineCost(cfg, c, s.previous);
    HeldIsOwned(s, OverlapAfter(cfg, s.built, first, segments), taken, floor);
    if reason.Some? {
      floor' := CloseCovers(cfg, s, first, startIndex, segments, taken, floor, chunks, c, reason.value);
      var closed := Flush(cfg, s, reason.value, false);
      TakeCovers(cfg, closed, first, startIndex, segments + [taken], [], floor', chunks, c, text, tokens);
      segments', taken' := segments + [taken], [] + closed.pending + [c];
    } else {
      TakeCovers(cfg, s, first, startIndex, segments, taken, floor, chunks, c, text, tokens);
      segments', taken', floor' := segments, taken + s.pending + [c], floor;
    }
  }

  // A bound between the taken chunks and those that follow them.
  lemma NextFloor(done: seq<Speech>, taken: seq<Speech>, pending: seq<Speech>, c: Speech, floor: nat) returns (next: nat)
    requires Ascending(done + taken + pending + [c]) && From(taken, floor) && From(pending, floor) && floor <= c.sequence
    ensures floor <= next && Below(taken, next) && From(pending + [c], next) && next <= c.sequence
  {
    var all := done + taken + pending + [c];
    next := (pending + [c])[0].sequence;
    var k := |done + taken|;
    Assoc(done + taken, pending, [c]);
    assert all[k..] == pending + [c];
    forall i | 0 <= i < |taken|
      ensures taken[i].sequence < next
    {
      assert taken[i] == all[|done| + i] && all[k].sequence == next;
    }
    forall i | 0 <= i < |pending + [c]|
      ensures next <= (pending + [c])[i].sequence
    {
      assert (pending + [c])[i] == all[k + i];
    }
    assert (pending + [c])[|pending|] == c;
  }

  lemma StartCovers(cfg: Settings, first: seq<Speech>, startIndex: nat, floor: nat)
    requires AllUseful(first) && Below(first, floor)
    ensures Covers(cfg, Start(cfg, first, startIndex), first, startIndex, [], [], floor, [])
  {
    EmptyRight(first);
  }

  lemma StepCovers(cfg: Settings, s: State, first: seq<Speech>, startIndex: nat, segments: seq<seq<Speech>>, taken: seq<Speech>,
                   floor: nat, chunks: seq<Speech>, c: Speech)
    returns (segments': seq<seq<Speech>>, taken': seq<Speech>, floor': nat)
    requires Covers(cfg, s, first, startIndex, segments, taken, floor, chunks)
    requires Ascending(chunks + [c]) && floor <= c.sequence
    ensures Covers(cfg, Step(cfg, s, c), first, startIndex, segments', taken', floor', chunks + [c])
    ensures floor' <= c.sequence && (Useful(taken') == [] <==> Useful(taken) == [] && !IsUseful(c))
  {
    if IsUseful(c) {
      segments', taken', floor' := StepUseful(cfg, s, first, startIndex, segments, taken, floor, chunks, c);
    } else {
      StepEmpty(cfg, s, first, startIndex, segments, taken, floor, chunks, c);
      segments', taken', floor' := segments, taken, floor;
    }
  }

  // The builder after any number of chunks.
  lemma {:induction false} RunCovers(cfg: Settings, first: seq<Speech>, startIndex: nat, chunks: seq<Speech>, floor0: nat)
    returns (segments: seq<seq<Speech>>, taken: seq<Speech>, floor: nat)
    requires Ascending(chunks) && AllUseful(first) && Below(first, floor0) && From(chunks, floor0)
    ensures Covers(cfg, Run(cfg, Start(cfg, first, startIndex), chunks), first, startIndex, segments, taken, floor, chunks)
    ensures Useful(taken) != [] <==> Useful(chunks) != []
    ensures floor <= if chunks == [] then floor0 else chunks[|chunks| - 1].sequence
  {
    if chunks == [] {
      StartCovers(cfg, first, startIndex, floor0);
      segments, taken, floor := [], [], floor0;
    } else {
      var init, c := chunks[..|chunks| - 1], chunks[|chunks| - 1];
      LastAscends(chunks, floor0);
      segments, taken, floor := RunCovers(cfg, first, startIndex, init, floor0);
      segments, taken, floor := StepCovers(cfg, Run(cfg, Start(cfg, first, startIndex), init), first, startIndex, segments, taken,
                                           floor, init, c);
    }
  }

  // Closing with the trailing empty chunks.
  lemma AbsorbHeld(cfg: Settings, s: State, overlap: seq<Speech>, taken: seq<Speech>, floor: nat)
    requires Held(cfg, s, overlap, taken, floor)
    ensures Held(cfg, AbsorbPending(s), overlap, taken + s.pending, floor)
    ensures Useful(taken + s.pending) == Useful(taken)
  {
    UsefulConcat(taken, s.pending);
    EmptiesConcat(taken, s.pending);
    NothingUseful(s.pending);
    EmptyRight(Useful(taken));
    SequencesConcat(Empties(taken), s.pending);
    DurationConcat(Empties(taken), s.pending);
    SplitGrows(overlap, taken, s.pending, floor);
  }

  lemma AbsorbCovers(cfg: Settings, s: State, first: seq<Speech>, startIndex: nat, segments: seq<seq<Speech>>, taken: seq<Speech>,
                     floor: nat, chunks: seq<Speech>)
    requires Covers(cfg, s, first, startIndex, segments, taken, floor, chunks)
    ensures Covers(cfg, AbsorbPending(s), first, startIndex, segments, taken + s.pending, floor, chunks)
  {
    AbsorbHeld(cfg, s, OverlapAfter(cfg, s.built, first, segments), taken, floor);
    Assoc(Flatten(segments), taken, s.pending);
    EmptyRight(chunks);
  }

  // The windows of one call cut a prefix of the reachable chunks into segments:
  // all of the chunks when the call is final and any of them is useful.
  lemma BuildPartitions(cfg: Settings, chunks: seq<Speech>, startIndex: nat, force: bool, prefix: seq<Speech>, skippable: set<int>,
                        boundary: nat)
    returns (segments: seq<seq<Speech>>)
    requires Below(Overlap(prefix), boundary) && From(Reachable(chunks, skippable), boundary)
    ensures Chained(cfg, Build(cfg, chunks, startIndex, force, prefix, skippable), Overlap(prefix), startIndex, segments)
    ensures Flatten(segments) <= Reachable(chunks, skippable)
    ensures force && Useful(Reachable(chunks, skippable)) != [] ==> Flatten(segments) == Reachable(chunks, skippable)
  {
    var reach, first := Reachable(chunks, skippable), Overlap(prefix);
    ReachableAscends(chunks, skippable);
    UsefulIsUseful(OrderedUnique(prefix));
    var taken, floor;
    segments, taken, floor := RunCovers(cfg, first, startIndex, reach, boundary);
    segments := FinishPartitions(cfg, Run(cfg, Start(cfg, first, startIndex), reach), first, startIndex, segments, taken, floor,
                                 reach, force);
  }

  lemma FinishPartitions(cfg: Settings, s: State, first: seq<Speech>, startIndex: nat, segments: seq<seq<Speech>>, taken: seq<Speech>,
                         floor: nat, reach: seq<Speech>, force: bool)
    returns (segments': seq<seq<Speech>>)
    requires Covers(cfg, s, first, startIndex, segments, taken, floor, reach)
    ensures Chained(cfg, Finish(cfg, s, force).built, first, startIndex, segments')
    ensures Flatten(segments') <= reach && (force && Useful(taken) != [] ==> Flatten(segments') == reach)
    ensures segments' == if Finish(cfg, s, force).built == s.built then segments else segments + [taken + s.pending]
  {
    HeldIsOwned(s, OverlapAfter(cfg, s.built, first, segments), taken, floor);
    segments' := segments;
    if OwnsSome(s) {
      AbsorbCovers(cfg, s, first, startIndex, segments, taken, floor, reach);
      UsefulConcat(taken, s.pending);
      segments' := SettlePartitions(cfg, AbsorbPending(s), first, startIndex, segments, taken + s.pending, floor, reach, force);
    } else {
      Prefixes(Flatten(segments), taken, s.pending);
    }
  }

  lemma SettlePartitions(cfg: Settings, s: State, first: seq<Speech>, startIndex: nat, segments: seq<seq<Speech>>, taken: seq<Speech>,
                         floor: nat, reach: seq<Speech>, force: bool)
    returns (segments': seq<seq<Speech>>)
    requires Covers(cfg, s, first, startIndex, segments, taken, floor, reach) && Useful(taken) != [] && s.pending == []
    ensures Chained(cfg, Settle(cfg, s, force).built, first, startIndex, segments')
    ensures Flatten(segments') <= reach && (force ==> Flatten(segments') == reach)
    ensures segments' == if Settle(cfg, s, force).built == s.built then segments else segments + [taken]
  {
    if Settle(cfg, s, force) == s {
      segments' := segments;
      Prefixes(Flatten(segments), taken, s.pending);
    } else {
      segments' := segments + [taken];
    }
    FlushPartitions(cfg, s, first, startIndex, segments, taken, floor, reach, ForcedFinal, true);
    FlushPartitions(cfg, s, first, startIndex, segments, taken, floor, reach, TokenTarget, false);
    FlushPartitions(cfg, s, first, startIndex, segments, taken, floor, reach, SparseTimeout, false);
  }

  lemma FlushPartitions(cfg: Settings, s: State, first: seq<Speech>, startIndex: nat, segments: seq<seq<Speech>>, taken: seq<Speech>,
                        floor: nat, reach: seq<Speech>, reason: CloseReason, final: bool)
    requires Covers(cfg, s, first, startIndex, segments, taken, floor, reach) && Useful(taken) != [] && s.pending == []
    ensures Chained(cfg, Flush(cfg, s, reason, final).built, first, startIndex, segments + [taken])
    ensures Flatten(segments + [taken]) == reach
    ensures Flush(cfg, s, reason, final).built != s.built
  {
    var next := MaxSequence(taken) + 1 + floor;
    BelowMax(taken, next);
    FlushHeld(cfg, s, OverlapAfter(cfg, s.built, first, segments), taken, floor, next, reason, final);
    FlushCovers(cfg, s, first, startIndex, segments, taken, floor, reach, next, reason, final);
    EmptyRight(Flatten(segments + [taken]));
  }

  lemma BelowMax(chunks: seq<Speech>, n: int)
    requires chunks != [] && MaxSequence(chunks) < n
    ensures Below(chunks, n)
  {
    SequenceBounds(chunks);
  }

  // ----- the partition, read window by window

  function Owned(built: seq<Built>): seq<seq<nat>> {
    if built == [] then [] else Owned(built[..|built| - 1]) + [built[|built| - 1].owned]
  }

  function Listed(built: seq<Built>): multiset<nat> {
    if built == [] then multiset{}
    else Listed(built[..|built| - 1]) + multiset(built[|built| - 1].owned) + multiset(built[|built| - 1].skipped)
  }

  lemma {:induction false} SequencesOf(chunks: seq<Speech>)
    ensures multiset(Sequences(chunks)) == multiset(Sequences(Useful(chunks))) + multiset(Sequences(Empties(chunks)))
  {
    if chunks != [] {
      SequencesOf(chunks[..|chunks| - 1]);
      Snoc(Useful(chunks[..|chunks| - 1]), chunks[|chunks| - 1]);
      Snoc(Empties(chunks[..|chunks| - 1]), chunks[|chunks| - 1]);
    }
  }

  lemma WindowListsItsSegment(cfg: Settings, b: Built, overlap: seq<Speech>, segment: seq<Speech>, index: nat)
    requires WindowOk(cfg, b, overlap, segment, index)
    ensures multiset(b.owned) + multiset(b.skipped) == multiset(Sequences(segment))
  {
    SequencesOf(segment);
  }

  // Every consumed sequence number is listed once, as owned or as skipped, and nothing else is.
  lemma {:induction false} ListedExactlyOnce(cfg: Settings, built: seq<Built>, first: seq<Speech>, startIndex: nat,
                                             segments: seq<seq<Speech>>)
    requires Chained(cfg, built, first, startIndex, segments)
    ensures Listed(built) == multiset(Sequences(Flatten(segments)))
  {
    if built != [] {
      var n := |built| - 1;
      ListedExactlyOnce(cfg, built[..n], first, startIndex, segments[..n]);
      SequencesConcat(Flatten(segments[..n]), segments[n]);
      WindowListsItsSegment(cfg, built[n], OverlapAfter(cfg, built[..n], first, segments[..n]), segments[n], startIndex + n);
    }
  }

  lemma {:induction false} NotListed(chunks: seq<Speech>, n: nat)
    requires forall i :: 0 <= i < |chunks| ==> chunks[i].sequence != n
    ensures multiset(Sequences(chunks))[n] == 0
  {
    if chunks != [] {
      NotListed(chunks[..|chunks| - 1], n);
    }
  }

  lemma {:induction false} ListedOnce(chunks: seq<Speech>, i: nat)
    requires Ascending(chunks) && i < |chunks|
    ensures multiset(Sequences(chunks))[chunks[i].sequence] == 1
  {
    var init := chunks[..|chunks| - 1];
    if i < |init| {
      ListedOnce(init, i);
    } else {
      NotListed(init, chunks[i].sequence);
    }
  }

  lemma {:induction false} ChainedPrefix(cfg: Settings, built: seq<Built>, first: seq<Speech>, startIndex: nat,
                                         segments: seq<seq<Speech>>, i: nat)
    requires Chained(cfg, built, first, startIndex, segments) && i <= |built|
    ensures Chained(cfg, built[..i], first, startIndex, segments[..i])
  {
    if i == |built| {
      TakeAll(built);
      TakeAll(segments);
    } else {
      var n := |built| - 1;
      ChainedPrefix(cfg, built[..n], first, startIndex, segments[..n], i);
      TakeTake(built, i, n);
      TakeTake(segments, i, n);
    }
  }

  // The i-th window, wherever it stands: its index, its segment, and what it repeats.
  lemma WindowAt(cfg: Settings, built: seq<Built>, first: seq<Speech>, startIndex: nat, segments: seq<seq<Speech>>, i: nat)
    requires Chained(cfg, built, first, startIndex, segments) && i < |built|
    ensures WindowOk(cfg, built[i], OverlapAfter(cfg, built[..i], first, segments[..i]), segments[i], startIndex + i)
    ensures built[i].sequences == Sequences(OverlapAfter(cfg, built[..i], first, segments[..i])) + built[i].owned
  {
    ChainedPrefix(cfg, built, first, startIndex, segments, i + 1);
    TakeSnoc(built, i);
    TakeSnoc(segments, i);
    SequencesConcat(OverlapAfter(cfg, built[..i], first, segments[..i]), Useful(segments[i]));
  }

  // A window starts with a suffix of its predecessor's sequence numbers (none after a final window).
  lemma OverlapIsPreviousTail(cfg: Settings, built: seq<Built>, first: seq<Speech>, startIndex: nat, segments: seq<seq<Speech>>, i: nat)
    returns (k: nat)
    requires Chained(cfg, built, first, startIndex, segments) && 0 < i < |built|
    ensures k <= |built[i - 1].sequences|
    ensures built[i].sequences == built[i - 1].sequences[k..] + built[i].owned
    ensures built[i - 1].window.isFinalPartial ==> k == |built[i - 1].sequences|
  {
    WindowAt(cfg, built, first, startIndex, segments, i);
    WindowAt(cfg, built, first, startIndex, segments, i - 1);
    TakeSnoc(built, i - 1);
    TakeSnoc(segments, i - 1);
    var before := OverlapAfter(cfg, built[..i - 1], first, segments[..i - 1]) + Useful(segments[i - 1]);
    var overlap := OverlapAfter(cfg, built[..i], first, segments[..i]);
    assert overlap == Handed(cfg, built[i - 1].window.isFinalPartial, before);
    TailIsSuffix(cfg, built[i - 1].window.isFinalPartial, before);
    k := |before| - |overlap|;
    Cut(before, k);
    SequencesConcat(before[..k], overlap);
  }
}

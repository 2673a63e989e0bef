// The builder reduced to what decides which chunks a window owns, when sparse
// closing is off and no chunk echoes its predecessor: two lists of useful
// chunks. Restarting from a closed window and replaying the chunks that follow
// it then changes nothing.

module WindowCore {
  import opened Seqs
  import opened Text
  import opened Models
  import opened Windowing
  import opened ChunkLists
  import opened WindowPartition

  // The owned numbers and the chunks of the closed windows, the repeated chunks,
  // and the new ones.
  datatype Core = Core(owned: seq<seq<nat>>, lists: seq<seq<Speech>>, overlap: seq<Speech>, mine: seq<Speech>)

  function Begun(first: seq<Speech>): Core {
    Core([], [], first, [])
  }

  function Cost(cfg: Settings, c: Speech): nat {
    LineCost(cfg, c, "")
  }

  function Costs(cfg: Settings, chunks: seq<Speech>): nat {
    if chunks == [] then 0 else Costs(cfg, chunks[..|chunks| - 1]) + Cost(cfg, chunks[|chunks| - 1])
  }

  function Tokens(cfg: Settings, k: Core): nat {
    UsefulTokens(cfg, k.overlap) + Costs(cfg, k.mine)
  }

  predicate IsFull(cfg: Settings, k: Core, c: Speech) {
    && k.mine != []
    && (Tokens(cfg, k) + Cost(cfg, c) > cfg.target
        || (cfg.durationLimit > 0 && TotalDuration(k.overlap + k.mine) + c.durationMs > cfg.durationLimit))
  }

  function CloseCore(cfg: Settings, k: Core): Core {
    Core(k.owned + [Sequences(k.mine)], k.lists + [k.overlap + k.mine], TailChunks(cfg, k.overlap + k.mine), [])
  }

  function CoreStep(cfg: Settings, k: Core, c: Speech): Core {
    var closed := if IsFull(cfg, k, c) then CloseCore(cfg, k) else k;
    closed.(mine := closed.mine + [c])
  }

  function CoreRun(cfg: Settings, k: Core, chunks: seq<Speech>): Core {
    if chunks == [] then k else CoreStep(cfg, CoreRun(cfg, k, chunks[..|chunks| - 1]), chunks[|chunks| - 1])
  }

  function CoreSettle(cfg: Settings, k: Core): Core {
    if k.mine != [] && Tokens(cfg, k) >= cfg.target then CloseCore(cfg, k) else k
  }

  // What the core forgets when only the windows are stored.
  function Stored(k: Core): Core {
    k.(mine := [])
  }

  // ----- restarting

  predicate CostsSomething(cfg: Settings, chunks: seq<Speech>) {
    forall i :: 0 <= i < |chunks| ==> Cost(cfg, chunks[i]) >= 1
  }

  lemma {:induction false} CoreRunConcat(cfg: Settings, k: Core, a: seq<Speech>, b: seq<Speech>)
    ensures CoreRun(cfg, k, a + b) == CoreRun(cfg, CoreRun(cfg, k, a), b)
  {
    if b == [] {
      EmptyRight(a);
    } else {
      CoreRunConcat(cfg, k, a, b[..|b| - 1]);
      InitOfConcat(a, b);
    }
  }

  // Settling first changes nothing for the next chunk: a settled window is one
  // that chunk would have closed.
  lemma SettleThenStep(cfg: Settings, k: Core, c: Speech)
    requires Cost(cfg, c) >= 1
    ensures CoreStep(cfg, CoreSettle(cfg, k), c) == CoreStep(cfg, k, c)
  {
  }

  lemma {:induction false} SettleThenRun(cfg: Settings, k: Core, chunks: seq<Speech>)
    requires CostsSomething(cfg, chunks)
    ensures CoreSettle(cfg, CoreRun(cfg, CoreSettle(cfg, k), chunks)) == CoreSettle(cfg, CoreRun(cfg, k, chunks))
    ensures chunks != [] ==> CoreRun(cfg, CoreSettle(cfg, k), chunks) == CoreRun(cfg, k, chunks)
  {
    if |chunks| == 1 {
      assert chunks == [] + [chunks[0]];
      SettleThenStep(cfg, k, chunks[0]);
    } else if |chunks| > 1 {
      SettleThenRun(cfg, k, chunks[..|chunks| - 1]);
    }
  }

  // The new chunks of a reachable core never filled it, so replaying them over
  // its overlap gives the core back.
  predicate Replayable(cfg: Settings, k: Core) {
    CoreRun(cfg, Stored(k), k.mine) == k
  }

  lemma StepReplayable(cfg: Settings, k: Core, c: Speech)
    requires Replayable(cfg, k)
    ensures Replayable(cfg, CoreStep(cfg, k, c))
  {
    var closed := if IsFull(cfg, k, c) then CloseCore(cfg, k) else k;
    Snoc(closed.mine, c);
    assert CoreStep(cfg, closed, c) == closed.(mine := closed.mine + [c]);
  }

  lemma {:induction false} RunReplayable(cfg: Settings, k: Core, chunks: seq<Speech>)
    requires Replayable(cfg, k)
    ensures Replayable(cfg, CoreRun(cfg, k, chunks))
  {
    if chunks != [] {
      RunReplayable(cfg, k, chunks[..|chunks| - 1]);
      StepReplayable(cfg, CoreRun(cfg, k, chunks[..|chunks| - 1]), chunks[|chunks| - 1]);
    }
  }

  lemma SettleReplayable(cfg: Settings, k: Core)
    requires Replayable(cfg, k)
    ensures Replayable(cfg, CoreSettle(cfg, k))
  {
  }

  // A call at the end of `done`, then a call that only has the stored windows
  // and the chunks they do not own, against one call for everything.
  lemma RestartIsTransparent(cfg: Settings, done: seq<Speech>, more: seq<Speech>, first: seq<Speech>)
    requires CostsSomething(cfg, more)
    ensures var settled := CoreSettle(cfg, CoreRun(cfg, Begun(first), done));
            CoreSettle(cfg, CoreRun(cfg, Stored(settled), settled.mine + more)) ==
            CoreSettle(cfg, CoreRun(cfg, Begun(first), done + more))
  {
    var start := Begun(first);
    var settled := CoreSettle(cfg, CoreRun(cfg, start, done));
    RunReplayable(cfg, start, done);
    SettleReplayable(cfg, CoreRun(cfg, start, done));
    CoreRunConcat(cfg, Stored(settled), settled.mine, more);
    SettleThenRun(cfg, CoreRun(cfg, start, done), more);
    CoreRunConcat(cfg, start, done, more);
  }

  // The owned lists and the new chunks, one after the other, are the chunks run so far.
  function Concat(lists: seq<seq<nat>>): seq<nat> {
    if lists == [] then [] else Concat(lists[..|lists| - 1]) + lists[|lists| - 1]
  }

  // How many of `chunks` the core has given to windows; its overlap is a suffix of those.
  ghost predicate Owns(cfg: Settings, k: Core, chunks: seq<Speech>, n: nat, from: nat) {
    && from <= n <= |chunks|
    && k.mine == chunks[n..] && k.overlap == chunks[from..n]
    && Concat(k.owned) == Sequences(chunks[..n])
  }

  lemma CloseOwns(cfg: Settings, k: Core, chunks: seq<Speech>, n: nat, from: nat) returns (from': nat)
    requires Owns(cfg, k, chunks, n, from)
    ensures Owns(cfg, CloseCore(cfg, k), chunks, |chunks|, from')
  {
    var all := k.overlap + k.mine;
    assert all == chunks[from..];
    TailIsSuffix(cfg, false, all);
    from' := |chunks| - |TailChunks(cfg, all)|;
    assert all[|all| - |TailChunks(cfg, all)|..] == chunks[from'..|chunks|];
    Snoc(k.owned, Sequences(k.mine));
    SequencesConcat(chunks[..n], chunks[n..]);
    Cut(chunks, n);
    TakeAll(chunks);
  }

  lemma GrowOwns(cfg: Settings, k: Core, chunks: seq<Speech>, n: nat, from: nat, c: Speech)
    requires Owns(cfg, k, chunks, n, from)
    ensures Owns(cfg, k.(mine := k.mine + [c]), chunks + [c], n, from)
  {
    assert (chunks + [c])[n..] == chunks[n..] + [c];
    assert (chunks + [c])[..n] == chunks[..n] && (chunks + [c])[from..n] == chunks[from..n];
  }

  lemma {:induction false} RunOwns(cfg: Settings, chunks: seq<Speech>) returns (n: nat, from: nat)
    ensures Owns(cfg, CoreRun(cfg, Begun([]), chunks), chunks, n, from)
  {
    if chunks == [] {
      n, from := 0, 0;
    } else {
      var init, c := chunks[..|chunks| - 1], chunks[|chunks| - 1];
      n, from := RunOwns(cfg, init);
      var k := CoreRun(cfg, Begun([]), init);
      Whole(chunks);
      if IsFull(cfg, k, c) {
        from := CloseOwns(cfg, k, init, n, from);
        n := |init|;
        k := CloseCore(cfg, k);
      }
      GrowOwns(cfg, k, init, n, from, c);
    }
  }

  lemma SettleOwns(cfg: Settings, chunks: seq<Speech>) returns (n: nat, from: nat)
    ensures Owns(cfg, CoreSettle(cfg, CoreRun(cfg, Begun([]), chunks)), chunks, n, from)
  {
    n, from := RunOwns(cfg, chunks);
    var k := CoreRun(cfg, Begun([]), chunks);
    if CoreSettle(cfg, k) != k {
      from := CloseOwns(cfg, k, chunks, n, from);
      n := |chunks|;
    }
  }

  // ----- the builder behaves as the core

  // Whatever was printed of its predecessor, a chunk's line costs the same.
  ghost predicate CostsAlike(cfg: Settings, c: Speech, before: Speech) {
    forall p :: IsSuffix(p, Collapse(before.text)) ==> LineCost(cfg, c, p) == Cost(cfg, c)
  }

  ghost predicate CostStable(cfg: Settings, chunks: seq<Speech>) {
    forall i, j :: 0 <= i < |chunks| && j == i + 1 < |chunks| ==> CostsAlike(cfg, chunks[j], chunks[i])
  }

  // It is so when no chunk's opening words occur in its predecessor ...
  lemma NoEchoIsStable(cfg: Settings, c: Speech, before: Speech)
    requires forall p, size :: IsSuffix(p, Collapse(before.text)) ==> !Echoes(cfg.lower, Collapse(c.text), p, size)
    ensures CostsAlike(cfg, c, before)
  {
    forall p | IsSuffix(p, Collapse(before.text))
      ensures LineCost(cfg, c, p) == Cost(cfg, c)
    {
      NormalizedText(cfg.lower, c.text, p);
      NothingToEcho(cfg.lower, c.text);
    }
  }

  // The text the next line is compared with.
  ghost predicate Remembers(previous: string, seen: seq<Speech>) {
    if seen == [] then previous == "" else IsSuffix(previous, Collapse(seen[|seen| - 1].text))
  }

  lemma CostAfter(cfg: Settings, seen: seq<Speech>, c: Speech, previous: string)
    requires Remembers(previous, seen) && CostStable(cfg, seen + [c])
    ensures LineCost(cfg, c, previous) == Cost(cfg, c)
  {
    if seen != [] {
      assert (seen + [c])[|seen| - 1] == seen[|seen| - 1] && (seen + [c])[|seen|] == c;
      assert CostsAlike(cfg, c, seen[|seen| - 1]);
    }
  }

  function CoreOf(cfg: Settings, s: State, first: seq<Speech>, segments: seq<seq<Speech>>, taken: seq<Speech>): Core
    requires |s.built| == |segments|
  {
    Core(WindowPartition.Owned(s.built), Wholes(cfg, s.built, first, segments), OverlapAfter(cfg, s.built, first, segments),
         Useful(taken))
  }

  // A reason to close is the core being full.
  lemma ClosesWhenFull(cfg: Settings, s: State, k: Core, c: Speech)
    requires OwnsSome(s) <==> k.mine != []
    requires s.tokens == Tokens(cfg, k) && s.duration == TotalDuration(k.overlap + k.mine) && cfg.sparseWallMs <= 0
    requires LineCost(cfg, c, s.previous) == Cost(cfg, c)
    ensures ReasonToClose(cfg, s, c).Some? <==> IsFull(cfg, k, c)
  {
  }

  // A builder, the windows it has closed, and the core they amount to.
  ghost predicate Mirrors(cfg: Settings, s: State, first: seq<Speech>, segments: seq<seq<Speech>>, taken: seq<Speech>, k: Core) {
    && |s.built| == |segments|
    && k == CoreOf(cfg, s, first, segments, taken)
    && s.tokens == Tokens(cfg, k)
  }

  lemma FlushMirrors(cfg: Settings, s: State, first: seq<Speech>, segments: seq<seq<Speech>>, taken: seq<Speech>, floor: nat,
                     k: Core, next: nat, reason: CloseReason)
    requires Mirrors(cfg, s, first, segments, taken, k)
    requires Held(cfg, s, OverlapAfter(cfg, s.built, first, segments), taken, floor) && Useful(taken) != []
    requires floor <= next && Below(taken, next) && From(s.pending, next)
    ensures Mirrors(cfg, Flush(cfg, s, reason, false), first, segments + [taken], [], CloseCore(cfg, k))
  {
    var overlap := OverlapAfter(cfg, s.built, first, segments);
    var t := Flush(cfg, s, reason, false);
    FlushHeld(cfg, s, overlap, taken, floor, next, reason, false);
    FlushEmits(cfg, s, overlap, taken, floor, reason, false);
    BuiltGrows(cfg, s.built, first, segments, t.built[|s.built|], taken);
  }

  lemma BuiltGrows(cfg: Settings, built: seq<Built>, first: seq<Speech>, segments: seq<seq<Speech>>, b: Built, segment: seq<Speech>)
    requires |built| == |segments|
    ensures WindowPartition.Owned(built + [b]) == WindowPartition.Owned(built) + [b.owned]
    ensures OverlapAfter(cfg, built + [b], first, segments + [segment]) ==
            Handed(cfg, b.window.isFinalPartial, OverlapAfter(cfg, built, first, segments) + Useful(segment))
    ensures Wholes(cfg, built + [b], first, segments + [segment]) ==
            Wholes(cfg, built, first, segments) + [OverlapAfter(cfg, built, first, segments) + Useful(segment)]
  {
    Snoc(built, b);
    Snoc(segments, segment);
  }

  lemma AppendMirrors(cfg: Settings, s: State, first: seq<Speech>, segments: seq<seq<Speech>>, taken: seq<Speech>, k: Core,
                      c: Speech, text: string, tokens: nat)
    requires Mirrors(cfg, s, first, segments, taken, k)
    requires Useful(s.pending) == [] && IsUseful(c) && tokens == Cost(cfg, c)
    ensures Mirrors(cfg, Append(s, c, text, tokens), first, segments, taken + s.pending + [c], k.(mine := k.mine + [c]))
  {
    TakenGrows(taken, s.pending, c);
    Snoc(k.mine, c);
  }

  lemma CloseMirrors(cfg: Settings, s: State, first: seq<Speech>, startIndex: nat, segments: seq<seq<Speech>>, taken: seq<Speech>,
                     floor: nat, chunks: seq<Speech>, c: Speech, k: Core, reason: CloseReason)
    returns (floor': nat)
    requires Covers(cfg, s, first, startIndex, segments, taken, floor, chunks) && Mirrors(cfg, s, first, segments, taken, k)
    requires Ascending(chunks + [c]) && floor <= c.sequence && Useful(taken) != []
    ensures Covers(cfg, Flush(cfg, s, reason, false), first, startIndex, segments + [taken], [], floor', chunks)
    ensures Mirrors(cfg, Flush(cfg, s, reason, false), first, segments + [taken], [], CloseCore(cfg, k))
    ensures floor' <= c.sequence
  {
    floor' := NextFloor(Flatten(segments), taken, s.pending, c, floor);
    FromInit(s.pending, c, floor');
    FlushMirrors(cfg, s, first, segments, taken, floor, k, floor', reason);
    FlushCovers(cfg, s, first, startIndex, segments, taken, floor, chunks, floor', reason, false);
  }

  lemma FromInit(chunks: seq<Speech>, c: Speech, n: int)
    requires From(chunks + [c], n)
    ensures From(chunks, n)
  {
    assert forall i :: 0 <= i < |chunks| ==> chunks[i] == (chunks + [c])[i];
  }

  // Covers and Mirrors after one more chunk.
  lemma TakeMirrors(cfg: Settings, s: State, first: seq<Speech>, startIndex: nat, segments: seq<seq<Speech>>, taken: seq<Speech>,
                    floor: nat, chunks: seq<Speech>, c: Speech, k: Core, text: string)
    requires Covers(cfg, s, first, startIndex, segments, taken, floor, chunks) && Mirrors(cfg, s, first, segments, taken, k)
    requires IsUseful(c) && floor <= c.sequence && !IsFull(cfg, k, c)
    ensures var t := Append(s, c, text, Cost(cfg, c));
            && Covers(cfg, t, first, startIndex, segments, taken + s.pending + [c], floor, chunks + [c])
            && Mirrors(cfg, t, first, segments, taken + s.pending + [c], k.(mine := k.mine + [c]))
  {
    TakeCovers(cfg, s, first, startIndex, segments, taken, floor, chunks, c, text, Cost(cfg, c));
    AppendMirrors(cfg, s, first, segments, taken, k, c, text, Cost(cfg, c));
  }

  lemma StepMirrors(cfg: Settings, s: State, first: seq<Speech>, startIndex: nat, segments: seq<seq<Speech>>, taken: seq<Speech>,
                    floor: nat, chunks: seq<Speech>, c: Speech, k: Core)
    returns (segments': seq<seq<Speech>>, taken': seq<Speech>, floor': nat)
    requires Covers(cfg, s, first, startIndex, segments, taken, floor, chunks) && Mirrors(cfg, s, first, segments, taken, k)
    requires Ascending(chunks + [c]) && floor <= c.sequence && IsUseful(c)
    requires cfg.sparseWallMs <= 0 && LineCost(cfg, c, s.previous) == Cost(cfg, c)
    ensures Covers(cfg, Step(cfg, s, c), first, startIndex, segments', taken', floor', chunks + [c])
    ensures Mirrors(cfg, Step(cfg, s, c), first, segments', taken', CoreStep(cfg, k, c))
    ensures floor' <= c.sequence
  {
    HeldIsOwned(s, k.overlap, taken, floor);
    ClosesWhenFull(cfg, s, k, c);
    var reason := ReasonToClose(cfg, s, c);
    var text := NormalizeChunkText(cfg.lower, c.text, s.previous);
    if reason.Some? {
      floor' := CloseMirrors(cfg, s, first, startIndex, segments, taken, floor, chunks, c, k, reason.value);
      var t := Flush(cfg, s, reason.value, false);
      TakeMirrors(cfg, t, first, startIndex, segments + [taken], [], floor', chunks, c, CloseCore(cfg, k), text);
      segments', taken' := segments + [taken], [] + t.pending + [c];
    } else {
      TakeMirrors(cfg, s, first, startIndex, segments, taken, floor, chunks, c, k, text);
      segments', taken', floor' := segments, taken + s.pending + [c], floor;
    }
  }

  lemma StepRemembers(cfg: Settings, s: State, seen: seq<Speech>, c: Speech)
    requires Remembers(s.previous, seen)
    ensures Remembers(Step(cfg, s, c).previous, if IsUseful(c) then seen + [c] else seen)
  {
    NormalizedText(cfg.lower, c.text, s.previous);
    Snoc(seen, c);
  }

  lemma LastTextIsRemembered(cfg: Settings, first: seq<Speech>)
    requires AllUseful(first)
    ensures Remembers(LastUsefulText(cfg, first), first)
  {
    if first != [] {
      NothingToEcho(cfg.lower, first[|first| - 1].text);
    }
  }

  lemma StablePrefix(cfg: Settings, a: seq<Speech>, b: seq<Speech>)
    requires CostStable(cfg, a + b)
    ensures CostStable(cfg, a) && CostStable(cfg, b)
  {
    forall i, j | 0 <= i < |a| && j == i + 1 < |a|
      ensures CostsAlike(cfg, a[j], a[i])
    {
      assert (a + b)[i] == a[i] && (a + b)[j] == a[j];
    }
    forall i, j | 0 <= i < |b| && j == i + 1 < |b|
      ensures CostsAlike(cfg, b[j], b[i])
    {
      assert (a + b)[|a| + i] == b[i] && (a + b)[|a| + j] == b[j];
    }
  }

  ghost predicate RunsAlike(cfg: Settings, s: State, first: seq<Speech>, startIndex: nat, segments: seq<seq<Speech>>,
                            taken: seq<Speech>, floor: nat, chunks: seq<Speech>)
  {
    && Covers(cfg, s, first, startIndex, segments, taken, floor, chunks)
    && Mirrors(cfg, s, first, segments, taken, CoreRun(cfg, Begun(first), Useful(chunks)))
    && Remembers(s.previous, first + Useful(chunks))
  }

  lemma StepAlike(cfg: Settings, s: State, first: seq<Speech>, startIndex: nat, segments: seq<seq<Speech>>, taken: seq<Speech>,
                  floor: nat, chunks: seq<Speech>, c: Speech)
    returns (segments': seq<seq<Speech>>, taken': seq<Speech>, floor': nat)
    requires RunsAlike(cfg, s, first, startIndex, segments, taken, floor, chunks)
    requires Ascending(chunks + [c]) && floor <= c.sequence
    requires cfg.sparseWallMs <= 0 && CostStable(cfg, first + Useful(chunks + [c]))
    ensures RunsAlike(cfg, Step(cfg, s, c), first, startIndex, segments', taken', floor', chunks + [c])
    ensures floor' <= c.sequence
  {
    var seen := first + Useful(chunks);
    UsefulAppend(chunks, c);
    StepRemembers(cfg, s, seen, c);
    if IsUseful(c) {
      Assoc(first, Useful(chunks), [c]);
      CostAfter(cfg, seen, c, s.previous);
      Snoc(Useful(chunks), c);
      segments', taken', floor' := StepMirrors(cfg, s, first, startIndex, segments, taken, floor, chunks, c,
                                               CoreRun(cfg, Begun(first), Useful(chunks)));
    } else {
      StepEmpty(cfg, s, first, startIndex, segments, taken, floor, chunks, c);
      segments', taken', floor' := segments, taken, floor;
    }
  }

  lemma StartAlike(cfg: Settings, first: seq<Speech>, startIndex: nat, floor: nat)
    requires AllUseful(first) && Below(first, floor)
    ensures RunsAlike(cfg, Start(cfg, first, startIndex), first, startIndex, [], [], floor, [])
  {
    StartCovers(cfg, first, startIndex, floor);
    LastTextIsRemembered(cfg, first);
    EmptyRight(first);
  }

  // The builder over `chunks` and the core over their useful chunks.
  lemma {:induction false} RunAlike(cfg: Settings, first: seq<Speech>, startIndex: nat, chunks: seq<Speech>, floor0: nat)
    returns (segments: seq<seq<Speech>>, taken: seq<Speech>, floor: nat)
    requires Ascending(chunks) && AllUseful(first) && Below(first, floor0) && From(chunks, floor0)
    requires cfg.sparseWallMs <= 0 && CostStable(cfg, first + Useful(chunks))
    ensures RunsAlike(cfg, Run(cfg, Start(cfg, first, startIndex), chunks), first, startIndex, segments, taken, floor, chunks)
    ensures floor <= if chunks == [] then floor0 else chunks[|chunks| - 1].sequence
  {
    if chunks == [] {
      StartAlike(cfg, first, startIndex, floor0);
      segments, taken, floor := [], [], floor0;
    } else {
      var init, c := chunks[..|chunks| - 1], chunks[|chunks| - 1];
      LastAscends(chunks, floor0);
      StableInit(cfg, first, init, c);
      segments, taken, floor := RunAlike(cfg, first, startIndex, init, floor0);
      segments, taken, floor := StepAlike(cfg, Run(cfg, Start(cfg, first, startIndex), init), first, startIndex, segments, taken,
                                          floor, init, c);
    }
  }

  lemma StableInit(cfg: Settings, first: seq<Speech>, init: seq<Speech>, c: Speech)
    requires CostStable(cfg, first + Useful(init + [c]))
    ensures CostStable(cfg, first + Useful(init))
  {
    UsefulAppend(init, c);
    Assoc(first, Useful(init), [c]);
    if IsUseful(c) {
      StablePrefix(cfg, first + Useful(init), [c]);
    }
  }

  lemma AbsorbMirrors(cfg: Settings, s: State, first: seq<Speech>, startIndex: nat, segments: seq<seq<Speech>>, taken: seq<Speech>,
                      floor: nat, chunks: seq<Speech>, k: Core)
    requires Covers(cfg, s, first, startIndex, segments, taken, floor, chunks) && Mirrors(cfg, s, first, segments, taken, k)
    ensures Covers(cfg, AbsorbPending(s), first, startIndex, segments, taken + s.pending, floor, chunks)
    ensures Mirrors(cfg, AbsorbPending(s), first, segments, taken + s.pending, k)
  {
    AbsorbHeld(cfg, s, k.overlap, taken, floor);
    AbsorbCovers(cfg, s, first, startIndex, segments, taken, floor, chunks);
  }

  lemma OwnsWhatIsMine(cfg: Settings, s: State, first: seq<Speech>, startIndex: nat, segments: seq<seq<Speech>>,
                       taken: seq<Speech>, floor: nat, chunks: seq<Speech>, k: Core)
    requires Covers(cfg, s, first, startIndex, segments, taken, floor, chunks) && Mirrors(cfg, s, first, segments, taken, k)
    ensures OwnsSome(s) <==> k.mine != []
    ensures Chained(cfg, s.built, first, startIndex, segments)
  {
    HeldIsOwned(s, k.overlap, taken, floor);
  }

  lemma FinishCases(cfg: Settings, s: State)
    requires cfg.sparseWallMs <= 0
    ensures var t := AbsorbPending(s);
            Finish(cfg, s, false) ==
            if !OwnsSome(s) then s else if t.tokens >= cfg.target then Flush(cfg, t, TokenTarget, false) else t
  {
  }

  lemma SettleCases(cfg: Settings, k: Core, tokens: int)
    requires tokens == Tokens(cfg, k)
    ensures CoreSettle(cfg, k) == if k.mine != [] && tokens >= cfg.target then CloseCore(cfg, k) else k
  {
  }

  // The end of a call that is not final settles the core.
  lemma FinishMirrors(cfg: Settings, s: State, first: seq<Speech>, startIndex: nat, segments: seq<seq<Speech>>, taken: seq<Speech>,
                      floor: nat, chunks: seq<Speech>, k: Core)
    returns (segments': seq<seq<Speech>>, taken': seq<Speech>)
    requires Covers(cfg, s, first, startIndex, segments, taken, floor, chunks) && Mirrors(cfg, s, first, segments, taken, k)
    requires cfg.sparseWallMs <= 0
    ensures Mirrors(cfg, Finish(cfg, s, false), first, segments', taken', CoreSettle(cfg, k))
    ensures Chained(cfg, Finish(cfg, s, false).built, first, startIndex, segments')
  {
    OwnsWhatIsMine(cfg, s, first, startIndex, segments, taken, floor, chunks, k);
    FinishCases(cfg, s);
    if OwnsSome(s) {
      segments', taken' := AbsorbedMirrors(cfg, s, first, startIndex, segments, taken, floor, chunks, k);
    } else {
      segments', taken' := segments, taken;
      SettleCases(cfg, k, s.tokens);
    }
  }

  lemma AbsorbedMirrors(cfg: Settings, s: State, first: seq<Speech>, startIndex: nat, segments: seq<seq<Speech>>, taken: seq<Speech>,
                        floor: nat, chunks: seq<Speech>, k: Core)
    returns (segments': seq<seq<Speech>>, taken': seq<Speech>)
    requires Covers(cfg, s, first, startIndex, segments, taken, floor, chunks) && Mirrors(cfg, s, first, segments, taken, k)
    requires k.mine != []
    ensures var t := AbsorbPending(s);
            var u := if t.tokens >= cfg.target then Flush(cfg, t, TokenTarget, false) else t;
            Mirrors(cfg, u, first, segments', taken', CoreSettle(cfg, k)) && Chained(cfg, u.built, first, startIndex, segments')
  {
    var t := AbsorbPending(s);
    segments', taken' := segments, taken + s.pending;
    AbsorbMirrors(cfg, s, first, startIndex, segments, taken, floor, chunks, k);
    SettleCases(cfg, k, t.tokens);
    if t.tokens >= cfg.target {
      SettleMirrors(cfg, t, first, startIndex, segments, taken', floor, chunks, k);
      segments', taken' := segments + [taken'], [];
    }
  }

  lemma SettleMirrors(cfg: Settings, t: State, first: seq<Speech>, startIndex: nat, segments: seq<seq<Speech>>, taken: seq<Speech>,
                      floor: nat, chunks: seq<Speech>, k: Core)
    requires Covers(cfg, t, first, startIndex, segments, taken, floor, chunks) && Mirrors(cfg, t, first, segments, taken, k)
    requires Useful(taken) != [] && t.pending == []
    ensures Mirrors(cfg, Flush(cfg, t, TokenTarget, false), first, segments + [taken], [], CloseCore(cfg, k))
    ensures Chained(cfg, Flush(cfg, t, TokenTarget, false).built, first, startIndex, segments + [taken])
  {
    var next := MaxSequence(taken) + 1 + floor;
    BelowMax(taken, next);
    FlushMirrors(cfg, t, first, segments, taken, floor, k, next, TokenTarget);
    FlushPartitions(cfg, t, first, startIndex, segments, taken, floor, chunks, TokenTarget, false);
  }

  // ----- no window of such a call is final

  predicate NoneFinal(built: seq<Built>) {
    forall i :: 0 <= i < |built| ==> !built[i].window.isFinalPartial
  }

  lemma {:induction false} RunNotFinal(cfg: Settings, s: State, chunks: seq<Speech>)
    requires NoneFinal(s.built)
    ensures NoneFinal(Run(cfg, s, chunks).built)
  {
    if chunks != [] {
      RunNotFinal(cfg, s, chunks[..|chunks| - 1]);
    }
  }

  lemma FinishNotFinal(cfg: Settings, s: State)
    requires NoneFinal(s.built)
    ensures NoneFinal(Finish(cfg, s, false).built)
  {
    var t := AbsorbPending(s);
    FlushNotFinal(cfg, t, TokenTarget);
    FlushNotFinal(cfg, t, SparseTimeout);
  }

  lemma FlushNotFinal(cfg: Settings, s: State, reason: CloseReason)
    requires NoneFinal(s.built)
    ensures NoneFinal(Flush(cfg, s, reason, false).built)
  {
  }

  lemma BuildNotFinal(cfg: Settings, chunks: seq<Speech>, startIndex: nat, prefix: seq<Speech>, skippable: set<int>)
    ensures NoneFinal(Build(cfg, chunks, startIndex, false, prefix, skippable))
  {
    var s := Start(cfg, Overlap(prefix), startIndex);
    RunNotFinal(cfg, s, Reachable(chunks, skippable));
    FinishNotFinal(cfg, Run(cfg, s, Reachable(chunks, skippable)));
  }

  // One call that is not final, over chunks that follow its overlap.
  lemma BuildIsCore(cfg: Settings, chunks: seq<Speech>, startIndex: nat, prefix: seq<Speech>, skippable: set<int>, boundary: nat)
    returns (segments: seq<seq<Speech>>)
    requires Below(Overlap(prefix), boundary) && From(Reachable(chunks, skippable), boundary)
    requires cfg.sparseWallMs <= 0 && CostStable(cfg, Overlap(prefix) + Useful(Reachable(chunks, skippable)))
    ensures var built := Build(cfg, chunks, startIndex, false, prefix, skippable);
            var k := CoreSettle(cfg, CoreRun(cfg, Begun(Overlap(prefix)), Useful(Reachable(chunks, skippable))));
            && Chained(cfg, built, Overlap(prefix), startIndex, segments)
            && WindowPartition.Owned(built) == k.owned
            && OverlapAfter(cfg, built, Overlap(prefix), segments) == k.overlap
            && Wholes(cfg, built, Overlap(prefix), segments) == k.lists
  {
    var reach, first := Reachable(chunks, skippable), Overlap(prefix);
    ReachableAscends(chunks, skippable);
    UsefulIsUseful(OrderedUnique(prefix));
    var taken, floor;
    segments, taken, floor := RunAlike(cfg, first, startIndex, reach, boundary);
    segments, taken := FinishMirrors(cfg, Run(cfg, Start(cfg, first, startIndex), reach), first, startIndex, segments, taken,
                                     floor, reach, CoreRun(cfg, Begun(first), Useful(reach)));
  }
}

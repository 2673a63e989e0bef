// Why each window closes where it does, and why what is left stays open, said
// of the chunks themselves: neither the state of the builder nor its steps are
// named in what is promised here.

module CloseReasons {
  import opened Seqs
  import opened Text
  import opened Models
  import opened Transcript
  import opened Windowing
  import opened ChunkLists
  import opened WindowPartition

  // ----- what the lines of a call cost

  // How a call prints: the text that counts as printed before its first line, the
  // text of a chunk after another text, the tokens of that line, and the tokens
  // of a repeated list of chunks as a whole.
  datatype Printing = Printing(
    start: string,
    say: (Speech, string) -> string,
    cost: (Speech, string) -> nat,
    whole: seq<Speech> -> nat
  )

  function PrintingOf(cfg: Settings, first: seq<Speech>): Printing {
    Printing.Printing(
      if first == [] then "" else NormalizeChunkText(cfg.lower, first[|first| - 1].text, ""),
      (c: Speech, said: string) => NormalizeChunkText(cfg.lower, c.text, said),
      (c: Speech, said: string) => cfg.estimate(PrintLine(c.sequence, NormalizeChunkText(cfg.lower, c.text, said))),
      (chunks: seq<Speech>) => (if WindowText(cfg.lower, chunks) == "" then 0 else cfg.estimate(WindowText(cfg.lower, chunks))) as nat)
  }

  // The text printed last, once the useful chunks `line` have been printed.
  function Said(pr: Printing, line: seq<Speech>): string {
    if line == [] then pr.start else pr.say(line[|line| - 1], Said(pr, line[..|line| - 1]))
  }

  // The tokens of the lines `mine` when `before` was printed ahead of them.
  function Spend(pr: Printing, before: seq<Speech>, mine: seq<Speech>): nat {
    if mine == [] then 0
    else
      var init := mine[..|mine| - 1];
      Spend(pr, before, init) + pr.cost(mine[|mine| - 1], Said(pr, before + init))
  }

  // The tokens of a window that repeats `overlap` and owns `mine`.
  function TokensOf(pr: Printing, overlap: seq<Speech>, before: seq<Speech>, mine: seq<Speech>): nat {
    pr.whole(overlap) + Spend(pr, before, mine)
  }

  // The time a window spans: its useful chunks and the empty ones among them.
  function Span(overlap: seq<Speech>, segment: seq<Speech>): nat {
    TotalDuration(overlap + Useful(segment)) + TotalDuration(Empties(segment))
  }

  // The empty chunks ahead of the first useful one.
  function Gap(chunks: seq<Speech>): seq<Speech> {
    if Useful(chunks) == [] then chunks else Gap(chunks[..|chunks| - 1])
  }

  // The first useful chunk.
  function Next(chunks: seq<Speech>): Speech
    requires Useful(chunks) != []
  {
    var init := chunks[..|chunks| - 1];
    if Useful(init) == [] then chunks[|chunks| - 1] else Next(init)
  }

  // The chunks up to the last useful one.
  function Trim(chunks: seq<Speech>): seq<Speech> {
    if chunks == [] || IsUseful(chunks[|chunks| - 1]) then chunks else Trim(chunks[..|chunks| - 1])
  }

  // ----- the reasons

  // A sparse window is due once it says enough and would span too long.
  predicate SparseDue(cfg: Settings, tokens: int, wall: nat) {
    cfg.sparseWallMs > 0 && tokens >= cfg.sparseMinTokens && wall > cfg.sparseWallMs
  }

  predicate TooLong(cfg: Settings, duration: nat) {
    cfg.durationLimit > 0 && duration > cfg.durationLimit
  }

  // The reason for closing a window of `tokens` when the next chunk would cost
  // `cost`, bring the spoken time to `duration` and the whole time to `wall`.
  predicate ClosesBefore(cfg: Settings, reason: CloseReason, tokens: int, cost: nat, duration: nat, wall: nat) {
    match reason
    case TokenMax => tokens + cost > cfg.target && tokens + cost > cfg.tokenMax
    case TokenTarget => cfg.target < tokens + cost <= cfg.tokenMax
    case DurationMax => tokens + cost <= cfg.target && TooLong(cfg, duration)
    case SparseTimeout => tokens + cost <= cfg.target && !TooLong(cfg, duration) && SparseDue(cfg, tokens, wall)
    case ForcedFinal => false
  }

  // The reason for closing the last window when no useful chunk follows it.
  predicate ClosesAtEnd(cfg: Settings, reason: CloseReason, final: bool, tokens: int, wall: nat, force: bool) {
    && final == force && reason.ForcedFinal? == force
    && (!force ==> reason.TokenTarget? == (tokens >= cfg.target))
    && (!force && tokens < cfg.target ==> reason.SparseTimeout? && tokens >= cfg.sparseMinTokens && 0 < cfg.sparseWallMs <= wall)
  }

  // The chunks behind a window say why it was closed.
  ghost predicate ClosedFor(cfg: Settings, pr: Printing, b: Built, overlap: seq<Speech>, done: seq<Speech>, segment: seq<Speech>,
                            follow: seq<Speech>, force: bool)
  {
    && b.runningTokens == TokensOf(pr, overlap, Useful(done), Useful(segment))
    && if Useful(follow) != [] then
         var c := Next(follow);
         && !b.window.isFinalPartial
         && ClosesBefore(cfg, b.window.closeReason, b.runningTokens,
                         pr.cost(c, Said(pr, Useful(done) + Useful(segment))),
                         TotalDuration(overlap + Useful(segment)) + c.durationMs,
                         Span(overlap, segment) + TotalDuration(Gap(follow)) + c.durationMs)
       else
         ClosesAtEnd(cfg, b.window.closeReason, b.window.isFinalPartial, b.runningTokens, Span(overlap, segment), force)
  }

  // It was not due earlier: when its last useful chunk was taken, `wall` after it began, it was not sparse.
  ghost predicate NotEarlier(cfg: Settings, pr: Printing, overlap: seq<Speech>, before: seq<Speech>, mine: seq<Speech>, wall: nat) {
    |mine| >= 2 ==> !SparseDue(cfg, TokensOf(pr, overlap, before, mine[..|mine| - 1]), wall)
  }

  // Every window is closed for its reason and not earlier: `overlaps` are what
  // they repeat, `segments` what they take, and `rest` follows the last of them.
  ghost predicate Explained(cfg: Settings, pr: Printing, built: seq<Built>, overlaps: seq<seq<Speech>>, segments: seq<seq<Speech>>,
                            rest: seq<Speech>, force: bool)
  {
    && |built| == |segments| == |overlaps|
    && (built != [] ==>
          var n := |built| - 1;
          && Explained(cfg, pr, built[..n], overlaps[..n], segments[..n], segments[n], force)
          && ClosedFor(cfg, pr, built[n], overlaps[n], Flatten(segments[..n]), segments[n], rest, force)
          && NotEarlier(cfg, pr, overlaps[n], Useful(Flatten(segments[..n])), Useful(segments[n]), Span(overlaps[n], Trim(segments[n]))))
  }

  // What no window holds stays open: it has nothing to say, or too little to be closed.
  ghost predicate LeftOpen(cfg: Settings, pr: Printing, overlap: seq<Speech>, done: seq<Speech>, rest: seq<Speech>, force: bool) {
    Useful(rest) != [] ==>
      var tokens := TokensOf(pr, overlap, Useful(done), Useful(rest));
      && !force && tokens < cfg.target
      && !(tokens >= cfg.sparseMinTokens && 0 < cfg.sparseWallMs <= Span(overlap, rest))
      && NotEarlier(cfg, pr, overlap, Useful(done), Useful(rest), Span(overlap, Trim(rest)))
  }

  // What every window repeats.
  function Overlaps(cfg: Settings, built: seq<Built>, first: seq<Speech>, segments: seq<seq<Speech>>): (r: seq<seq<Speech>>)
    requires |built| == |segments|
    ensures |r| == |built|
  {
    if built == [] then []
    else
      var n := |built| - 1;
      Overlaps(cfg, built[..n], first, segments[..n]) + [OverlapAfter(cfg, built[..n], first, segments[..n])]
  }

  // ----- lists

  lemma SaidAfter(pr: Printing, before: seq<Speech>, mine: seq<Speech>, c: Speech)
    ensures Said(pr, before + (mine + [c])) == pr.say(c, Said(pr, before + mine))
    ensures Spend(pr, before, mine + [c]) == Spend(pr, before, mine) + pr.cost(c, Said(pr, before + mine))
  {
    Assoc(before, mine, [c]);
    Snoc(before + mine, c);
    Snoc(mine, c);
  }

  lemma GapOfAppend(a: seq<Speech>, c: Speech)
    ensures Useful(a) == [] && IsUseful(c) ==> Gap(a + [c]) == a && Useful(a + [c]) == [c] && Next(a + [c]) == c
    ensures Useful(a) != [] ==> Gap(a + [c]) == Gap(a) && Useful(a + [c]) != [] && Next(a + [c]) == Next(a)
  {
    UsefulAppend(a, c);
    Snoc(a, c);
  }

  lemma {:induction false} GapOfConcat(a: seq<Speech>, b: seq<Speech>)
    requires Useful(a) != []
    ensures Gap(a + b) == Gap(a) && Useful(a + b) != [] && Next(a + b) == Next(a)
  {
    if b == [] {
      EmptyRight(a);
    } else {
      var init, last := b[..|b| - 1], b[|b| - 1];
      GapOfConcat(a, init);
      GapOfAppend(a + init, last);
      assert b == init + [last];
      Assoc(a, init, [last]);
    }
  }

  lemma {:induction false} TrimOfConcat(a: seq<Speech>, b: seq<Speech>)
    requires Useful(b) == []
    ensures Trim(a + b) == Trim(a)
  {
    if b == [] {
      EmptyRight(a);
    } else {
      var init, last := b[..|b| - 1], b[|b| - 1];
      assert b == init + [last];
      TrimOfConcat(a, init);
      Assoc(a, init, [last]);
      Snoc(a + init, last);
    }
  }

  lemma FollowChanges(cfg: Settings, pr: Printing, built: seq<Built>, overlaps: seq<seq<Speech>>, segments: seq<seq<Speech>>,
                      rest: seq<Speech>, more: seq<Speech>, force: bool)
    requires Explained(cfg, pr, built, overlaps, segments, rest, force)
    requires built != [] ==> Useful(rest) != [] && Useful(more) != [] && Next(more) == Next(rest) && Gap(more) == Gap(rest)
    ensures Explained(cfg, pr, built, overlaps, segments, more, force)
  {
  }

  lemma ExplainedAppend(cfg: Settings, pr: Printing, built: seq<Built>, overlaps: seq<seq<Speech>>, segments: seq<seq<Speech>>, b: Built,
                        overlap: seq<Speech>, segment: seq<Speech>, rest: seq<Speech>, force: bool)
    requires Explained(cfg, pr, built, overlaps, segments, segment, force)
    requires ClosedFor(cfg, pr, b, overlap, Flatten(segments), segment, rest, force)
    requires NotEarlier(cfg, pr, overlap, Useful(Flatten(segments)), Useful(segment), Span(overlap, Trim(segment)))
    ensures Explained(cfg, pr, built + [b], overlaps + [overlap], segments + [segment], rest, force)
  {
    Snoc(built, b);
    Snoc(overlaps, overlap);
    Snoc(segments, segment);
  }

  lemma RestGrows(cfg: Settings, pr: Printing, built: seq<Built>, overlaps: seq<seq<Speech>>, segments: seq<seq<Speech>>,
                  taken: seq<Speech>, pending: seq<Speech>, c: Speech, force: bool)
    requires Explained(cfg, pr, built, overlaps, segments, taken + pending, force) && (built != [] ==> Useful(taken) != [])
    ensures Explained(cfg, pr, built, overlaps, segments, taken + pending + [c], force)
  {
    if built != [] {
      GapOfConcat(taken, pending);
      GapOfAppend(taken + pending, c);
    }
    FollowChanges(cfg, pr, built, overlaps, segments, taken + pending, taken + pending + [c], force);
  }

  lemma RestShrinks(cfg: Settings, pr: Printing, built: seq<Built>, overlaps: seq<seq<Speech>>, segments: seq<seq<Speech>>,
                    taken: seq<Speech>, pending: seq<Speech>, force: bool)
    requires Explained(cfg, pr, built, overlaps, segments, taken + pending, force) && (built != [] ==> Useful(taken) != [])
    ensures Explained(cfg, pr, built, overlaps, segments, taken, force)
  {
    if built != [] {
      GapOfConcat(taken, pending);
    }
    FollowChanges(cfg, pr, built, overlaps, segments, taken + pending, taken, force);
  }

  // ----- the builder, step by step

  // The counter of the builder and the text it printed last.
  ghost predicate Counts(pr: Printing, s: State, overlap: seq<Speech>, before: seq<Speech>, mine: seq<Speech>, empty: seq<Speech>) {
    && s.tokens == TokensOf(pr, overlap, before, mine) && s.previous == Said(pr, before + mine)
    && s.duration == TotalDuration(overlap + mine) && s.wall == s.duration + TotalDuration(empty)
  }

  // ... while it repeats `overlap` and has taken the chunks `taken`.
  ghost predicate Counted(pr: Printing, s: State, overlap: seq<Speech>, done: seq<Speech>, taken: seq<Speech>) {
    Counts(pr, s, overlap, Useful(done), Useful(taken), Empties(taken))
  }

  ghost predicate Ready(cfg: Settings, pr: Printing, s: State, overlap: seq<Speech>, done: seq<Speech>, taken: seq<Speech>) {
    && Counted(pr, s, overlap, done, taken)
    && NotEarlier(cfg, pr, overlap, Useful(done), Useful(taken), s.wall)
    && Trim(taken) == taken && Useful(s.pending) == []
  }

  ghost predicate Tells(cfg: Settings, pr: Printing, s: State, overlaps: seq<seq<Speech>>, overlap: seq<Speech>,
                        segments: seq<seq<Speech>>, taken: seq<Speech>, force: bool)
  {
    && Explained(cfg, pr, s.built, overlaps, segments, taken + s.pending, force)
    && Ready(cfg, pr, s, overlap, Flatten(segments), taken)
    && (s.built != [] ==> Useful(taken) != [])
  }

  lemma StartTells(cfg: Settings, pr: Printing, s: State, first: seq<Speech>, force: bool)
    requires s.built == [] && s.pending == [] && s.tokens == pr.whole(first) && s.previous == pr.start
    requires s.duration == TotalDuration(first) && s.wall == s.duration
    ensures Tells(cfg, pr, s, [], first, [], [], force)
  {
    EmptyRight(first);
  }

  lemma SkipTells(cfg: Settings, pr: Printing, s: State, overlaps: seq<seq<Speech>>, overlap: seq<Speech>, segments: seq<seq<Speech>>,
                  taken: seq<Speech>, c: Speech, force: bool)
    requires Tells(cfg, pr, s, overlaps, overlap, segments, taken, force) && !IsUseful(c)
    ensures Tells(cfg, pr, s.(pending := s.pending + [c]), overlaps, overlap, segments, taken, force)
  {
    UsefulAppend(s.pending, c);
    Assoc(taken, s.pending, [c]);
    RestGrows(cfg, pr, s.built, overlaps, segments, taken, s.pending, c, force);
  }

  lemma AppendCounts(pr: Printing, s: State, overlap: seq<Speech>, before: seq<Speech>, mine: seq<Speech>, empty: seq<Speech>, c: Speech)
    requires Counts(pr, s, overlap, before, mine, empty)
    ensures Counts(pr, Append(s, c, pr.say(c, s.previous), pr.cost(c, s.previous)), overlap, before, mine + [c], empty + s.pending)
  {
    SaidAfter(pr, before, mine, c);
    DurationConcat(empty, s.pending);
    Assoc(overlap, mine, [c]);
    Snoc(overlap + mine, c);
  }

  lemma TrimOfUseful(chunks: seq<Speech>, c: Speech)
    requires IsUseful(c)
    ensures Trim(chunks + [c]) == chunks + [c]
  {
    Snoc(chunks, c);
  }

  // A chunk is not due for the window that takes it.
  lemma TakenInTime(cfg: Settings, pr: Printing, overlap: seq<Speech>, before: seq<Speech>, mine: seq<Speech>, c: Speech,
                    tokens: int, wall: nat)
    requires tokens == TokensOf(pr, overlap, before, mine) && (mine != [] ==> !SparseDue(cfg, tokens, wall))
    ensures NotEarlier(cfg, pr, overlap, before, mine + [c], wall)
  {
    Snoc(mine, c);
  }

  lemma MoreReady(cfg: Settings, pr: Printing, s: State, overlap: seq<Speech>, done: seq<Speech>, taken: seq<Speech>, c: Speech,
                  more: seq<Speech>)
    requires Ready(cfg, pr, s, overlap, done, taken)
    requires Useful(taken) != [] ==> !SparseDue(cfg, s.tokens, s.wall + TotalDuration(s.pending) + c.durationMs)
    requires Useful(more) == Useful(taken) + [c] && Empties(more) == Empties(taken) + s.pending && Trim(more) == more
    ensures Ready(cfg, pr, Append(s, c, pr.say(c, s.previous), pr.cost(c, s.previous)), overlap, done, more)
  {
    TakenInTime(cfg, pr, overlap, Useful(done), Useful(taken), c, s.tokens, s.wall + TotalDuration(s.pending) + c.durationMs);
    AppendCounts(pr, s, overlap, Useful(done), Useful(taken), Empties(taken), c);
  }

  lemma TakeReady(cfg: Settings, pr: Printing, s: State, overlap: seq<Speech>, done: seq<Speech>, taken: seq<Speech>, c: Speech)
    requires Ready(cfg, pr, s, overlap, done, taken) && IsUseful(c)
    requires Useful(taken) != [] ==> !SparseDue(cfg, s.tokens, s.wall + TotalDuration(s.pending) + c.durationMs)
    ensures Ready(cfg, pr, Append(s, c, pr.say(c, s.previous), pr.cost(c, s.previous)), overlap, done, taken + s.pending + [c])
    ensures Useful(taken + s.pending + [c]) != []
  {
    TrimOfUseful(taken + s.pending, c);
    TakenGrows(taken, s.pending, c);
    MoreReady(cfg, pr, s, overlap, done, taken, c, taken + s.pending + [c]);
  }

  lemma TakeTells(cfg: Settings, pr: Printing, s: State, overlaps: seq<seq<Speech>>, overlap: seq<Speech>, segments: seq<seq<Speech>>,
                  taken: seq<Speech>, c: Speech, force: bool)
    requires Tells(cfg, pr, s, overlaps, overlap, segments, taken, force) && IsUseful(c)
    requires Useful(taken) != [] ==> !SparseDue(cfg, s.tokens, s.wall + TotalDuration(s.pending) + c.durationMs)
    ensures Tells(cfg, pr, Append(s, c, pr.say(c, s.previous), pr.cost(c, s.previous)), overlaps, overlap, segments,
                  taken + s.pending + [c], force)
  {
    TakeReady(cfg, pr, s, overlap, Flatten(segments), taken, c);
    RestGrows(cfg, pr, s.built, overlaps, segments, taken, s.pending, c, force);
    EmptyRight(taken + s.pending + [c]);
  }

  // What closing writes, and with what the next window starts.
  ghost predicate Closed(pr: Printing, s: State, t: State, tail: seq<Speech>, reason: CloseReason, final: bool) {
    && |t.built| == |s.built| + 1 && t.built == s.built + [t.built[|s.built|]]
    && var b := t.built[|s.built|];
    && b.runningTokens == s.tokens && b.window.closeReason == reason && b.window.isFinalPartial == final
    && t.pending == s.pending && t.tokens == pr.whole(tail) && t.duration == t.wall == TotalDuration(tail)
  }

  lemma FlushCloses(cfg: Settings, first: seq<Speech>, s: State, overlap: seq<Speech>, taken: seq<Speech>, floor: nat,
                    reason: CloseReason, final: bool)
    requires Holds(s, overlap, taken) && Split(overlap, taken, floor) && Useful(taken) != []
    ensures Closed(PrintingOf(cfg, first), s, Flush(cfg, s, reason, final), Handed(cfg, final, overlap + Useful(taken)), reason, final)
  {
    FlushEmits(cfg, s, overlap, taken, floor, reason, final);
  }

  // The first chunk of the next window.
  lemma RestartCounted(pr: Printing, t: State, tail: seq<Speech>, done: seq<Speech>, c: Speech, text: string)
    requires t.tokens == pr.whole(tail) && t.duration == t.wall == TotalDuration(tail)
    requires Useful(t.pending) == [] && IsUseful(c) && text == Said(pr, Useful(done))
    ensures Counted(pr, Append(t, c, pr.say(c, text), pr.cost(c, text)), tail, done, t.pending + [c])
  {
    EmptyRight(tail);
    EmptyRight(Useful(done));
    var t0 := t.(previous := text);
    AppendCounts(pr, t0, tail, Useful(done), [], [], c);
    UsefulAppend(t.pending, c);
    NothingUseful(t.pending);
    EmptyLeft([c]);
    EmptyLeft(t.pending);
  }

  lemma EmptyLeft<T>(a: seq<T>)
    ensures [] + a == a
  {
  }

  // A window that closes because of the chunk `c` behind the empty chunks `pending`.
  lemma ClosesBeforeNext(cfg: Settings, pr: Printing, s: State, overlap: seq<Speech>, done: seq<Speech>, taken: seq<Speech>, b: Built,
                         c: Speech, force: bool)
    requires Ready(cfg, pr, s, overlap, done, taken) && IsUseful(c)
    requires b.runningTokens == s.tokens && !b.window.isFinalPartial
    requires ClosesBefore(cfg, b.window.closeReason, s.tokens, pr.cost(c, s.previous), s.duration + c.durationMs,
                          s.wall + TotalDuration(s.pending) + c.durationMs)
    ensures ClosedFor(cfg, pr, b, overlap, done, taken, s.pending + [c], force)
  {
    GapOfAppend(s.pending, c);
  }

  // The windows after closing one, with the reason the next chunk gives.
  lemma CloseExplains(cfg: Settings, pr: Printing, s: State, overlaps: seq<seq<Speech>>, overlap: seq<Speech>,
                      segments: seq<seq<Speech>>, taken: seq<Speech>, b: Built, c: Speech, force: bool)
    requires Tells(cfg, pr, s, overlaps, overlap, segments, taken, force) && IsUseful(c) && Useful(taken) != []
    requires b.runningTokens == s.tokens && !b.window.isFinalPartial
    requires ClosesBefore(cfg, b.window.closeReason, s.tokens, pr.cost(c, s.previous), s.duration + c.durationMs,
                          s.wall + TotalDuration(s.pending) + c.durationMs)
    ensures Explained(cfg, pr, s.built + [b], overlaps + [overlap], segments + [taken], s.pending + [c], force)
  {
    ClosesBeforeNext(cfg, pr, s, overlap, Flatten(segments), taken, b, c, force);
    RestShrinks(cfg, pr, s.built, overlaps, segments, taken, s.pending, force);
    ExplainedAppend(cfg, pr, s.built, overlaps, segments, b, overlap, taken, s.pending + [c], force);
  }

  lemma CloseTells(cfg: Settings, pr: Printing, s: State, t: State, overlaps: seq<seq<Speech>>, overlap: seq<Speech>, tail: seq<Speech>,
                   segments: seq<seq<Speech>>, taken: seq<Speech>, c: Speech, reason: CloseReason, force: bool)
    requires Tells(cfg, pr, s, overlaps, overlap, segments, taken, force) && IsUseful(c) && Useful(taken) != []
    requires Closed(pr, s, t, tail, reason, false)
    requires ClosesBefore(cfg, reason, s.tokens, pr.cost(c, s.previous), s.duration + c.durationMs,
                          s.wall + TotalDuration(s.pending) + c.durationMs)
    ensures Tells(cfg, pr, Append(t, c, pr.say(c, s.previous), pr.cost(c, s.previous)), overlaps + [overlap], tail, segments + [taken],
                  s.pending + [c], force)
  {
    CloseExplains(cfg, pr, s, overlaps, overlap, segments, taken, t.built[|s.built|], c, force);
    Snoc(segments, taken);
    UsefulConcat(Flatten(segments), taken);
    RestartCounted(pr, t, tail, Flatten(segments + [taken]), c, s.previous);
    UsefulAppend(s.pending, c);
    TrimOfUseful(s.pending, c);
    TellsMore(cfg, pr, t, Append(t, c, pr.say(c, s.previous), pr.cost(c, s.previous)), overlaps + [overlap], tail, segments + [taken],
              s.pending + [c], force);
  }

  lemma TellsMore(cfg: Settings, pr: Printing, t: State, u: State, overlaps: seq<seq<Speech>>, overlap: seq<Speech>,
                  segments: seq<seq<Speech>>, taken: seq<Speech>, force: bool)
    requires u.built == t.built && u.pending == []
    requires Explained(cfg, pr, t.built, overlaps, segments, taken, force) && Counted(pr, u, overlap, Flatten(segments), taken)
    requires Trim(taken) == taken && |Useful(taken)| == 1
    ensures Tells(cfg, pr, u, overlaps, overlap, segments, taken, force)
  {
    EmptyRight(taken);
  }

  lemma ReasonIs(cfg: Settings, s: State, c: Speech)
    ensures var reason, cost := ReasonToClose(cfg, s, c), LineCost(cfg, c, s.previous);
            var wall := s.wall + TotalDuration(s.pending) + c.durationMs;
            && (reason.Some? ==> OwnsSome(s) && ClosesBefore(cfg, reason.value, s.tokens, cost, s.duration + c.durationMs, wall))
            && (OwnsSome(s) && reason.None? ==> !SparseDue(cfg, s.tokens, wall))
  {
  }

  // A step of the builder, printing as the call does.
  lemma StepIs(cfg: Settings, first: seq<Speech>, s: State, c: Speech)
    requires IsUseful(c)
    ensures var pr, reason := PrintingOf(cfg, first), ReasonToClose(cfg, s, c);
            var closed := if reason.Some? then Flush(cfg, s, reason.value, false) else s;
            && Step(cfg, s, c) == Append(closed, c, pr.say(c, s.previous), pr.cost(c, s.previous))
            && pr.cost(c, s.previous) == LineCost(cfg, c, s.previous)
  {
  }

  lemma UsefulTells(cfg: Settings, pr: Printing, s: State, first: seq<Speech>, overlaps: seq<seq<Speech>>, overlap: seq<Speech>,
                    segments: seq<seq<Speech>>, taken: seq<Speech>, floor: nat, c: Speech, force: bool)
    requires Tells(cfg, pr, s, overlaps, overlap, segments, taken, force) && IsUseful(c) && pr == PrintingOf(cfg, first)
    requires Holds(s, overlap, taken) && Split(overlap, taken, floor)
    ensures ReasonToClose(cfg, s, c).Some? ==>
              Tells(cfg, pr, Step(cfg, s, c), overlaps + [overlap], Handed(cfg, false, overlap + Useful(taken)), segments + [taken],
                    s.pending + [c], force)
    ensures ReasonToClose(cfg, s, c).None? ==>
              Tells(cfg, pr, Step(cfg, s, c), overlaps, overlap, segments, taken + s.pending + [c], force)
  {
    var reason := ReasonToClose(cfg, s, c);
    ReasonIs(cfg, s, c);
    StepIs(cfg, first, s, c);
    HeldIsOwned(s, overlap, taken, floor);
    if reason.Some? {
      var tail := Handed(cfg, false, overlap + Useful(taken));
      FlushCloses(cfg, first, s, overlap, taken, floor, reason.value, false);
      CloseTells(cfg, pr, s, Flush(cfg, s, reason.value, false), overlaps, overlap, tail, segments, taken, c, reason.value, force);
    } else {
      TakeTells(cfg, pr, s, overlaps, overlap, segments, taken, c, force);
    }
  }

  // What the windows and the next one repeat, after closing one.
  lemma OverlapsGrow(cfg: Settings, built: seq<Built>, first: seq<Speech>, segments: seq<seq<Speech>>, b: Built, segment: seq<Speech>)
    requires |built| == |segments|
    ensures Overlaps(cfg, built + [b], first, segments + [segment]) ==
            Overlaps(cfg, built, first, segments) + [OverlapAfter(cfg, built, first, segments)]
    ensures OverlapAfter(cfg, built + [b], first, segments + [segment]) ==
            Handed(cfg, b.window.isFinalPartial, OverlapAfter(cfg, built, first, segments) + Useful(segment))
  {
    Snoc(built, b);
    Snoc(segments, segment);
  }

  ghost predicate TellsAll(cfg: Settings, s: State, first: seq<Speech>, segments: seq<seq<Speech>>, taken: seq<Speech>, force: bool) {
    && |s.built| == |segments|
    && Tells(cfg, PrintingOf(cfg, first), s, Overlaps(cfg, s.built, first, segments), OverlapAfter(cfg, s.built, first, segments),
             segments, taken, force)
  }

  lemma UsefulTellsAll(cfg: Settings, s: State, first: seq<Speech>, segments: seq<seq<Speech>>, taken: seq<Speech>, floor: nat, c: Speech,
                       force: bool)
    requires TellsAll(cfg, s, first, segments, taken, force) && IsUseful(c)
    requires var overlap := OverlapAfter(cfg, s.built, first, segments); Holds(s, overlap, taken) && Split(overlap, taken, floor)
    ensures ReasonToClose(cfg, s, c).Some? ==> TellsAll(cfg, Step(cfg, s, c), first, segments + [taken], s.pending + [c], force)
    ensures ReasonToClose(cfg, s, c).None? ==> TellsAll(cfg, Step(cfg, s, c), first, segments, taken + s.pending + [c], force)
  {
    var overlaps, overlap := Overlaps(cfg, s.built, first, segments), OverlapAfter(cfg, s.built, first, segments);
    UsefulTells(cfg, PrintingOf(cfg, first), s, first, overlaps, overlap, segments, taken, floor, c, force);
    if ReasonToClose(cfg, s, c).Some? {
      var t := Flush(cfg, s, ReasonToClose(cfg, s, c).value, false);
      HeldIsOwned(s, overlap, taken, floor);
      FlushCloses(cfg, first, s, overlap, taken, floor, ReasonToClose(cfg, s, c).value, false);
      OverlapsGrow(cfg, s.built, first, segments, t.built[|s.built|], taken);
    }
  }

  lemma UsefulStepTells(cfg: Settings, s: State, first: seq<Speech>, segments: seq<seq<Speech>>, taken: seq<Speech>, floor: nat,
                        c: Speech, segments': seq<seq<Speech>>, taken': seq<Speech>, force: bool)
    requires TellsAll(cfg, s, first, segments, taken, force) && IsUseful(c)
    requires var overlap := OverlapAfter(cfg, s.built, first, segments); Holds(s, overlap, taken) && Split(overlap, taken, floor)
    requires var closes := ReasonToClose(cfg, s, c).Some?;
             && segments' == (if closes then segments + [taken] else segments)
             && taken' == (if closes then [] else taken) + s.pending + [c]
    ensures TellsAll(cfg, Step(cfg, s, c), first, segments', taken', force)
  {
    UsefulTellsAll(cfg, s, first, segments, taken, floor, c, force);
    EmptyLeft(s.pending);
  }

  lemma StepTells(cfg: Settings, s: State, first: seq<Speech>, startIndex: nat, segments: seq<seq<Speech>>, taken: seq<Speech>,
                  floor: nat, chunks: seq<Speech>, c: Speech, force: bool)
    returns (segments': seq<seq<Speech>>, taken': seq<Speech>, floor': nat)
    requires Covers(cfg, s, first, startIndex, segments, taken, floor, chunks) && TellsAll(cfg, s, first, segments, taken, force)
    requires Ascending(chunks + [c]) && floor <= c.sequence
    ensures Covers(cfg, Step(cfg, s, c), first, startIndex, segments', taken', floor', chunks + [c]) && floor' <= c.sequence
    ensures TellsAll(cfg, Step(cfg, s, c), first, segments', taken', force)
  {
    if IsUseful(c) {
      segments', taken', floor' := StepUseful(cfg, s, first, startIndex, segments, taken, floor, chunks, c);
      UsefulStepTells(cfg, s, first, segments, taken, floor, c, segments', taken', force);
    } else {
      StepEmpty(cfg, s, first, startIndex, segments, taken, floor, chunks, c);
      SkipTells(cfg, PrintingOf(cfg, first), s, Overlaps(cfg, s.built, first, segments), OverlapAfter(cfg, s.built, first, segments),
                segments, taken, c, force);
      segments', taken', floor' := segments, taken, floor;
    }
  }

  lemma StartTellsAll(cfg: Settings, first: seq<Speech>, startIndex: nat, force: bool)
    requires AllUseful(first)
    ensures TellsAll(cfg, Start(cfg, first, startIndex), first, [], [], force)
  {
    StartTells(cfg, PrintingOf(cfg, first), Start(cfg, first, startIndex), first, force);
  }

  lemma {:induction false} RunTells(cfg: Settings, first: seq<Speech>, startIndex: nat, chunks: seq<Speech>, floor0: nat, force: bool)
    returns (segments: seq<seq<Speech>>, taken: seq<Speech>, floor: nat)
    requires Ascending(chunks) && AllUseful(first) && Below(first, floor0) && From(chunks, floor0)
    ensures var s := Run(cfg, Start(cfg, first, startIndex), chunks);
            Covers(cfg, s, first, startIndex, segments, taken, floor, chunks) && TellsAll(cfg, s, first, segments, taken, force)
    ensures floor <= if chunks == [] then floor0 else chunks[|chunks| - 1].sequence
  {
    if chunks == [] {
      StartCovers(cfg, first, startIndex, floor0);
      StartTellsAll(cfg, first, startIndex, force);
      segments, taken, floor := [], [], floor0;
    } else {
      var init, c := chunks[..|chunks| - 1], chunks[|chunks| - 1];
      LastAscends(chunks, floor0);
      segments, taken, floor := RunTells(cfg, first, startIndex, init, floor0, force);
      segments, taken, floor := StepTells(cfg, Run(cfg, Start(cfg, first, startIndex), init), first, startIndex, segments, taken,
                                          floor, init, c, force);
    }
  }

  // ----- the end of a call

  // What is held when the last empty chunks have been taken in.
  ghost predicate Ends(cfg: Settings, pr: Printing, s: State, overlap: seq<Speech>, done: seq<Speech>, all: seq<Speech>) {
    && Counted(pr, s, overlap, done, all)
    && NotEarlier(cfg, pr, overlap, Useful(done), Useful(all), Span(overlap, Trim(all)))
  }

  lemma AbsorbEnds(cfg: Settings, pr: Printing, s: State, overlap: seq<Speech>, done: seq<Speech>, taken: seq<Speech>)
    requires Ready(cfg, pr, s, overlap, done, taken)
    ensures Ends(cfg, pr, AbsorbPending(s), overlap, done, taken + s.pending)
  {
    UsefulConcat(taken, s.pending);
    EmptiesConcat(taken, s.pending);
    NothingUseful(s.pending);
    EmptyRight(Useful(taken));
    DurationConcat(Empties(taken), s.pending);
    TrimOfConcat(taken, s.pending);
  }

  // Closing the window that holds all the rest.
  lemma LastExplains(cfg: Settings, pr: Printing, built: seq<Built>, b: Built, s: State, overlaps: seq<seq<Speech>>, overlap: seq<Speech>,
                     segments: seq<seq<Speech>>, all: seq<Speech>, force: bool)
    requires Explained(cfg, pr, built, overlaps, segments, all, force) && Ends(cfg, pr, s, overlap, Flatten(segments), all)
    requires b.runningTokens == s.tokens && ClosesAtEnd(cfg, b.window.closeReason, b.window.isFinalPartial, s.tokens, s.wall, force)
    ensures Explained(cfg, pr, built + [b], overlaps + [overlap], segments + [all], [], force)
  {
    ExplainedAppend(cfg, pr, built, overlaps, segments, b, overlap, all, [], force);
  }

  lemma SettleCases(cfg: Settings, s: State, first: seq<Speech>, overlap: seq<Speech>, all: seq<Speech>, floor: nat, force: bool)
    requires Holds(s, overlap, all) && Split(overlap, all, floor) && Useful(all) != []
    ensures var t := Settle(cfg, s, force);
            if t.built == s.built then
              !force && s.tokens < cfg.target && !(s.tokens >= cfg.sparseMinTokens && 0 < cfg.sparseWallMs <= s.wall)
            else
              && |t.built| == |s.built| + 1 && t.built == s.built + [t.built[|s.built|]]
              && var b := t.built[|s.built|];
              && b.runningTokens == s.tokens
              && ClosesAtEnd(cfg, b.window.closeReason, b.window.isFinalPartial, s.tokens, s.wall, force)
  {
    var reason := if force then ForcedFinal else if s.tokens >= cfg.target then TokenTarget else SparseTimeout;
    FlushCloses(cfg, first, s, overlap, all, floor, reason, force);
  }

  // The windows `built` took `segments` of `reach`; what follows them is explained.
  ghost predicate AllExplained(cfg: Settings, built: seq<Built>, first: seq<Speech>, segments: seq<seq<Speech>>, rest: seq<Speech>,
                               force: bool)
  {
    && |built| == |segments|
    && var pr := PrintingOf(cfg, first);
    && Explained(cfg, pr, built, Overlaps(cfg, built, first, segments), segments, rest, force)
    && LeftOpen(cfg, pr, OverlapAfter(cfg, built, first, segments), Flatten(segments), rest, force)
  }

  lemma SettleExplains(cfg: Settings, s: State, first: seq<Speech>, segments: seq<seq<Speech>>, all: seq<Speech>, floor: nat, force: bool)
    returns (segments': seq<seq<Speech>>, rest: seq<Speech>)
    requires |s.built| == |segments|
    requires Explained(cfg, PrintingOf(cfg, first), s.built, Overlaps(cfg, s.built, first, segments), segments, all, force)
    requires var overlap := OverlapAfter(cfg, s.built, first, segments);
             && Ends(cfg, PrintingOf(cfg, first), s, overlap, Flatten(segments), all)
             && Holds(s, overlap, all) && Split(overlap, all, floor) && Useful(all) != []
    ensures AllExplained(cfg, Settle(cfg, s, force).built, first, segments', rest, force)
    ensures var open := Settle(cfg, s, force).built == s.built;
            segments' == (if open then segments else segments + [all]) && rest == if open then all else []
  {
    var overlap, t := OverlapAfter(cfg, s.built, first, segments), Settle(cfg, s, force);
    SettleCases(cfg, s, first, overlap, all, floor, force);
    if t.built == s.built {
      segments', rest := segments, all;
    } else {
      segments', rest := segments + [all], [];
      var b := t.built[|s.built|];
      LastExplains(cfg, PrintingOf(cfg, first), s.built, b, s, Overlaps(cfg, s.built, first, segments), overlap, segments, all, force);
      OverlapsGrow(cfg, s.built, first, segments, b, all);
    }
  }

  lemma FinishExplains(cfg: Settings, s: State, first: seq<Speech>, startIndex: nat, segments: seq<seq<Speech>>, taken: seq<Speech>,
                       floor: nat, reach: seq<Speech>, force: bool)
    returns (segments': seq<seq<Speech>>, rest: seq<Speech>)
    requires Covers(cfg, s, first, startIndex, segments, taken, floor, reach) && TellsAll(cfg, s, first, segments, taken, force)
    ensures AllExplained(cfg, Finish(cfg, s, force).built, first, segments', rest, force) && Flatten(segments') + rest == reach
    ensures segments' == if Finish(cfg, s, force).built == s.built then segments else segments + [taken + s.pending]
  {
    var overlap := OverlapAfter(cfg, s.built, first, segments);
    Assoc(Flatten(segments), taken, s.pending);
    HeldIsOwned(s, overlap, taken, floor);
    UsefulConcat(taken, s.pending);
    if OwnsSome(s) {
      AbsorbEnds(cfg, PrintingOf(cfg, first), s, overlap, Flatten(segments), taken);
      AbsorbHeld(cfg, s, overlap, taken, floor);
      segments', rest := SettleExplains(cfg, AbsorbPending(s), first, segments, taken + s.pending, floor, force);
      Snoc(segments, taken + s.pending);
      EmptyRight(reach);
    } else {
      segments', rest := segments, taken + s.pending;
    }
  }

  // One call: its windows cut the reachable chunks, each closes for its reason
  // and not earlier, and what they leave open was not to be closed.
  lemma WindowsCloseForReasons(cfg: Settings, chunks: seq<Speech>, startIndex: nat, force: bool, prefix: seq<Speech>,
                               skippable: set<int>, boundary: nat)
    returns (segments: seq<seq<Speech>>, rest: seq<Speech>)
    requires Below(Overlap(prefix), boundary) && From(Reachable(chunks, skippable), boundary)
    ensures var built, first := Build(cfg, chunks, startIndex, force, prefix, skippable), Overlap(prefix);
            && Chained(cfg, built, first, startIndex, segments) && Flatten(segments) + rest == Reachable(chunks, skippable)
            && AllExplained(cfg, built, first, segments, rest, force)
  {
    var reach, first := Reachable(chunks, skippable), Overlap(prefix);
    ReachableAscends(chunks, skippable);
    UsefulIsUseful(OrderedUnique(prefix));
    var taken, floor;
    segments, taken, floor := RunTells(cfg, first, startIndex, reach, boundary, force);
    var s := Run(cfg, Start(cfg, first, startIndex), reach);
    var same := FinishPartitions(cfg, s, first, startIndex, segments, taken, floor, reach, force);
    segments, rest := FinishExplains(cfg, s, first, startIndex, segments, taken, floor, reach, force);
  }
}

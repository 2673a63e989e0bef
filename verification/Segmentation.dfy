// Cutting a transcript into overlapping segments for a model to read
// (services/conversation/transcript.py, `segment_transcript`).

module Segmentation {
  import opened Seqs
  import opened Text
  import opened Models

  // `overlap` is `max(0, int(target_tokens * overlap_ratio))`.
  datatype Cutting = Cutting(target: int, overlap: nat, maxSegments: nat, estimate: string -> nat)

  // The chunk number a line carries, and its text.
  datatype Line = Line(number: nat, text: string)

  // `lines` is what `text` was joined from; the program does not store it.
  datatype Segment = Segment(index: nat, sequenceStart: int, sequenceEnd: int, text: string, tokenCount: nat, lines: seq<Line>)

  // ----- sentences

  predicate EndsSentence(c: char) {
    c == '.' || c == '!' || c == '?' || c == '\U{0964}'
  }

  // Where the blanks behind a sentence start.
  function Boundary(s: string, i: nat): (k: nat)
    requires 1 <= i <= |s|
    ensures i <= k <= |s|
    decreases |s| - i
  {
    if i == |s| then i
    else if EndsSentence(s[i - 1]) && IsSpace(s[i]) then i
    else Boundary(s, i + 1)
  }

  function Sentences(s: string): seq<string>
    decreases |s|
  {
    if s == "" then [s]
    else
      var k := Boundary(s, 1);
      if k == |s| then [s]
      else [s[..k]] + Sentences(LStrip(s[k..]))
  }

  predicate IsBlank(s: string) {
    forall i :: 0 <= i < |s| ==> IsSpace(s[i])
  }

  const EndMarks := {'.', '!', '?', '\U{0964}'}

  // No end mark is followed by white space.
  predicate IsOneSentence(s: string) {
    forall i, j :: 0 <= i && j == i + 1 < |s| ==> !(s[i] in EndMarks && IsSpace(s[j]))
  }

  // The sentences one after the other, with the gaps between them.
  function PutTogether(sentences: seq<string>, gaps: seq<string>): string
    requires |sentences| == |gaps| + 1
  {
    if gaps == [] then sentences[0] else sentences[0] + (gaps[0] + PutTogether(sentences[1..], gaps[1..]))
  }

  // Every sentence but the last ends with an end mark, and white space follows;
  // inside a sentence no end mark is followed by white space.
  predicate WellCut(sentences: seq<string>, gaps: seq<string>) {
    && |sentences| == |gaps| + 1
    && (forall i :: 0 <= i < |sentences| ==> IsOneSentence(sentences[i]))
    && (forall i :: 0 <= i < |gaps| ==> gaps[i] != "" && IsBlank(gaps[i]) && EndsMarked(sentences[i]))
    && forall i :: 0 < i < |sentences| ==> sentences[i] == "" || !IsSpace(sentences[i][0])
  }

  predicate EndsMarked(s: string) {
    s != "" && s[|s| - 1] in EndMarks
  }

  lemma {:induction false} BoundaryIsFirst(s: string, i: nat)
    requires 1 <= i <= |s|
    ensures var k := Boundary(s, i);
            && (k < |s| ==> EndsSentence(s[k - 1]) && IsSpace(s[k]))
            && forall j :: i <= j < k ==> !(EndsSentence(s[j - 1]) && IsSpace(s[j]))
    decreases |s| - i
  {
    if i < |s| && !(EndsSentence(s[i - 1]) && IsSpace(s[i])) {
      BoundaryIsFirst(s, i + 1);
    }
  }

  lemma FirstSentence(s: string)
    requires s != ""
    ensures var k := Boundary(s, 1); IsOneSentence(s[..k]) && (k < |s| ==> EndsMarked(s[..k]) && IsSpace(s[k]))
  {
    BoundaryIsFirst(s, 1);
  }

  // What follows the first sentence: white space, then the rest.
  lemma BehindFirst(s: string) returns (gap: string)
    requires s != "" && Boundary(s, 1) < |s|
    ensures var k, rest := Boundary(s, 1), LStrip(s[Boundary(s, 1)..]);
            && gap != "" && IsBlank(gap) && s == s[..k] + (gap + rest) && (rest == "" || !IsSpace(rest[0])) && |rest| < |s|
  {
    var behind := s[Boundary(s, 1)..];
    var k := Skip(IsSpace, behind, 0);
    FirstSentence(s);
    SkipsOver(IsSpace, behind, 0);
    gap := behind[..k];
    Cut(behind, k);
    Cut(s, Boundary(s, 1));
    assert behind[0] == s[Boundary(s, 1)];
  }

  lemma WellCutPrepend(first: string, gap: string, sentences: seq<string>, gaps: seq<string>)
    requires WellCut(sentences, gaps) && IsOneSentence(first) && EndsMarked(first) && gap != "" && IsBlank(gap)
    requires sentences[0] == "" || !IsSpace(sentences[0][0])
    ensures WellCut([first] + sentences, [gap] + gaps)
    ensures PutTogether([first] + sentences, [gap] + gaps) == first + (gap + PutTogether(sentences, gaps))
  {
    assert ([first] + sentences)[1..] == sentences && ([gap] + gaps)[1..] == gaps;
  }

  lemma {:induction false} StartsAlike(sentences: seq<string>, gaps: seq<string>)
    requires WellCut(sentences, gaps)
    ensures PutTogether(sentences, gaps) == "" ==> sentences[0] == ""
    ensures sentences[0] != "" ==> PutTogether(sentences, gaps) != "" && PutTogether(sentences, gaps)[0] == sentences[0][0]
  {
  }

  // Cutting a text loses nothing: the sentences and the white space between them
  // make it up again, and no more cuts could be made.
  lemma {:induction false} SentencesMakeUp(s: string) returns (gaps: seq<string>)
    ensures WellCut(Sentences(s), gaps) && PutTogether(Sentences(s), gaps) == s
    decreases |s|
  {
    gaps := [];
    if s != "" {
      var k := Boundary(s, 1);
      FirstSentence(s);
      TakeAll(s);
      if k < |s| {
        var rest := LStrip(s[k..]);
        var gap := BehindFirst(s);
        gaps := SentencesMakeUp(rest);
        StartsAlike(Sentences(rest), gaps);
        WellCutPrepend(s[..k], gap, Sentences(rest), gaps);
        gaps := [gap] + gaps;
      }
    }
  }

  // The lines of one chunk: `[number] sentence`, or one blank line.
  function LinesFrom(number: nat, sentences: seq<string>): seq<Line> {
    if sentences == [] then []
    else
      LinesFrom(number, sentences[..|sentences| - 1])
      + [Line(number, PrintLine(number, Strip(sentences[|sentences| - 1])))]
  }

  function LinesOf(chunk: Speech): seq<Line> {
    LinesFrom(chunk.sequence, Sentences(chunk.text))
  }

  function AllLines(chunks: seq<Speech>): seq<Line> {
    if chunks == [] then [] else AllLines(chunks[..|chunks| - 1]) + LinesOf(chunks[|chunks| - 1])
  }

  // `_sequence_from_line`: the number in brackets in front, or 0.
  function NumberOfLine(text: string): nat {
    if text == "" || text[0] != '[' then 0
    else match MatchNumber(text[1..]) case Some(found) => found.0 case None => 0
  }

  predicate IsPrinted(line: Line) {
    NumberOfLine(line.text) == line.number
  }

  lemma PrintedNumber(number: nat, text: string)
    ensures NumberOfLine(PrintLine(number, text)) == number
  {
    var digits := Decimal(number);
    var rest := PrintLine(number, text)[1..];
    assert rest == digits + "] " + text;
    forall i | 0 <= i < |digits|
      ensures IsDigit(rest[i])
    {
      assert rest[i] == digits[i];
    }
    SkipsTo(IsDigit, rest, 0, |digits|);
    assert rest[..|digits|] == digits;
    DecimalRoundTrip(number);
  }

  lemma {:induction false} LinesFromPrinted(number: nat, sentences: seq<string>)
    ensures forall i :: 0 <= i < |LinesFrom(number, sentences)| ==> IsPrinted(LinesFrom(number, sentences)[i])
  {
    if sentences != [] {
      LinesFromPrinted(number, sentences[..|sentences| - 1]);
      PrintedNumber(number, Strip(sentences[|sentences| - 1]));
    }
  }

  predicate AllPrinted(lines: seq<Line>) {
    forall i :: 0 <= i < |lines| ==> IsPrinted(lines[i])
  }

  lemma {:induction false} AllLinesPrinted(chunks: seq<Speech>)
    ensures AllPrinted(AllLines(chunks))
  {
    if chunks != [] {
      AllLinesPrinted(chunks[..|chunks| - 1]);
      LinesFromPrinted(chunks[|chunks| - 1].sequence, Sentences(chunks[|chunks| - 1].text));
    }
  }

  // ----- the cutter, as a state machine

  function Texts(lines: seq<Line>): seq<string> {
    if lines == [] then [] else Texts(lines[..|lines| - 1]) + [lines[|lines| - 1].text]
  }

  function Tokens(cut: Cutting, lines: seq<Line>): nat {
    if lines == [] then 0 else Tokens(cut, lines[..|lines| - 1]) + cut.estimate(lines[|lines| - 1].text)
  }

  function TailFrom(cut: Cutting, lines: seq<Line>, k: nat, total: nat): (start: nat)
    requires k <= |lines|
    ensures start <= k
  {
    if k == 0 then 0
    else
      var sum := total + cut.estimate(lines[k - 1].text);
      if sum >= cut.overlap then k - 1 else TailFrom(cut, lines, k - 1, sum)
  }

  // The lines a segment repeats from the one before it.
  function TailOf(cut: Cutting, lines: seq<Line>): seq<Line> {
    if cut.overlap == 0 then [] else lines[TailFrom(cut, lines, |lines|, 0)..]
  }

  datatype State = State(segments: seq<Segment>, lines: seq<Line>, start: int, end: int, tokens: nat, stopped: bool)

  function NewSegment(cut: Cutting, s: State): Segment {
    var text := Strip(JoinLines(Texts(s.lines)));
    Segment(|s.segments| + 1, s.start, s.end, text, cut.estimate(text), s.lines)
  }

  function Flush(cut: Cutting, s: State): State {
    if s.lines == [] then s
    else
      var tail := TailOf(cut, s.lines);
      s.(segments := s.segments + [NewSegment(cut, s)], lines := tail, tokens := Tokens(cut, tail),
      start := if tail == [] then s.start else NumberOfLine(tail[0].text))
  }

  function Append(cut: Cutting, s: State, line: Line): State {
    s.(lines := s.lines + [line], start := if s.lines == [] then line.number else s.start, end := line.number,
    tokens := s.tokens + cut.estimate(line.text))
  }

  predicate IsFull(cut: Cutting, s: State, line: Line) {
    s.lines != [] && s.tokens + cut.estimate(line.text) > cut.target
  }

  function Feed(cut: Cutting, s: State, line: Line): State {
    if s.stopped then s
    else if !IsFull(cut, s, line) then Append(cut, s, line)
    else
      var flushed := Flush(cut, s);
      if |flushed.segments| >= cut.maxSegments then flushed.(stopped := true) else Append(cut, flushed, line)
  }

  function FeedAll(cut: Cutting, s: State, lines: seq<Line>): State {
    if lines == [] then s else Feed(cut, FeedAll(cut, s, lines[..|lines| - 1]), lines[|lines| - 1])
  }

  function Begin(number: int): State {
    State([], [], number, number, 0, false)
  }

  function AtMost(segments: seq<Segment>, count: nat): seq<Segment> {
    if count >= |segments| then segments else segments[..count]
  }

  // The chunks are in the order of their numbers.
  function SegmentAll(cut: Cutting, chunks: seq<Speech>): seq<Segment> {
    if chunks == [] then []
    else
      var fed := FeedAll(cut, Begin(chunks[0].sequence), AllLines(chunks));
      if fed.stopped then fed.segments else AtMost(Flush(cut, fed).segments, cut.maxSegments)
  }

  // ----- the cutter, as the program runs it

  class Segmenter {
    const cut: Cutting
    var segments: seq<Segment>
    var currentLines: seq<Line>
    var currentStart: int
    var currentEnd: int
    var currentTokens: nat

    ghost function Now(stopped: bool): State
      reads this
    {
      State(segments, currentLines, currentStart, currentEnd, currentTokens, stopped)
    }

    constructor (cut: Cutting, number: int)
      ensures this.cut == cut && Now(false) == Begin(number)
    {
      this.cut := cut;
      segments, currentLines, currentStart, currentEnd, currentTokens := [], [], number, number, 0;
    }

    method TakeTail(lines: seq<Line>) returns (tail: seq<Line>)
      ensures tail == TailOf(cut, lines)
    {
      tail := [];
      if cut.overlap == 0 {
        return;
      }
      var total: nat, k := 0, |lines|;
      while k > 0
        invariant 0 <= k <= |lines| && tail == lines[k..]
        invariant TailFrom(cut, lines, |lines|, 0) == TailFrom(cut, lines, k, total)
      {
        k := k - 1;
        total := total + cut.estimate(lines[k].text);
        tail := [lines[k]] + tail;
        if total >= cut.overlap {
          break;
        }
      }
    }

    method FlushCurrent()
      modifies this
      ensures Now(false) == Flush(cut, old(Now(false)))
    {
      if currentLines == [] {
        return;
      }
      var text := Strip(JoinLines(Texts(currentLines)));
      var segment := Segment(|segments| + 1, currentStart, currentEnd, text, cut.estimate(text), currentLines);
      assert segment == NewSegment(cut, old(Now(false)));
      var tail := TakeTail(currentLines);
      Restart(segment, tail);
    }

    method Restart(segment: Segment, tail: seq<Line>)
      modifies this
      ensures Now(false) == old(Now(false)).(segments := old(segments) + [segment], lines := tail, tokens := Tokens(cut, tail),
                            start := if tail == [] then old(currentStart) else NumberOfLine(tail[0].text))
    {
      var tokens, start := Tokens(cut, tail), if tail == [] then currentStart else NumberOfLine(tail[0].text);
      segments, currentLines, currentTokens, currentStart := segments + [segment], tail, tokens, start;
    }

    method Take(line: Line) returns (stopped: bool)
      modifies this
      ensures Now(stopped) == Feed(cut, old(Now(false)), line)
    {
      var tokenCount := cut.estimate(line.text);
      if currentLines != [] && currentTokens + tokenCount > cut.target {
        FlushCurrent();
        if |segments| >= cut.maxSegments {
          return true;
        }
      }
      if currentLines == [] {
        currentStart := line.number;
      }
      currentLines := currentLines + [line];
      currentEnd := line.number;
      currentTokens := currentTokens + tokenCount;
      stopped := false;
    }
  }

  method SegmentTranscript(cut: Cutting, chunks: seq<Speech>) returns (segments: seq<Segment>)
    ensures segments == SegmentAll(cut, chunks)
  {
    if chunks == [] {
      return [];
    }
    var lines := AllLines(chunks);
    var segmenter := new Segmenter(cut, chunks[0].sequence);
    for i := 0 to |lines|
      invariant segmenter.cut == cut
      invariant segmenter.Now(false) == FeedAll(cut, Begin(chunks[0].sequence), lines[..i])
    {
      TakeSnoc(lines, i);
      ghost var before := segmenter.Now(false);
      var stopped := segmenter.Take(lines[i]);
      if stopped {
        StaysStopped(cut, Begin(chunks[0].sequence), lines, i + 1);
        return segmenter.segments;
      }
    }
    TakeAll(lines);
    segmenter.FlushCurrent();
    segments := AtMost(segmenter.segments, cut.maxSegments);
  }

  lemma {:induction false} StaysStopped(cut: Cutting, s: State, lines: seq<Line>, i: nat)
    requires i <= |lines| && FeedAll(cut, s, lines[..i]).stopped
    ensures FeedAll(cut, s, lines) == FeedAll(cut, s, lines[..i])
  {
    if i < |lines| {
      TakeTake(lines, i, |lines| - 1);
      StaysStopped(cut, s, lines[..|lines| - 1], i);
    } else {
      TakeAll(lines);
    }
  }

  // ----- what the segments hold

  function Flatten(parts: seq<seq<Line>>): seq<Line> {
    if parts == [] then [] else Flatten(parts[..|parts| - 1]) + parts[|parts| - 1]
  }

  function TailAfter(cut: Cutting, segments: seq<Segment>): seq<Line> {
    if segments == [] then [] else TailOf(cut, segments[|segments| - 1].lines)
  }

  predicate WithinTarget(cut: Cutting, lines: seq<Line>, mine: seq<Line>) {
    |mine| >= 2 ==> Tokens(cut, lines) <= cut.target
  }

  // One segment: lines repeated from the one before, then new ones.
  predicate SegmentOk(cut: Cutting, s: Segment, tail: seq<Line>, mine: seq<Line>) {
    && mine != [] && s.lines == tail + mine
    && s.sequenceStart == s.lines[0].number && s.sequenceEnd == s.lines[|s.lines| - 1].number
    && s.text == Strip(JoinLines(Texts(s.lines))) && s.tokenCount == cut.estimate(s.text)
    && WithinTarget(cut, s.lines, mine)
  }

  predicate Chained(cut: Cutting, segments: seq<Segment>, parts: seq<seq<Line>>) {
    && |segments| == |parts|
    && (segments != [] ==>
          var n := |segments| - 1;
          && Chained(cut, segments[..n], parts[..n]) && segments[n].index == |segments|
          && SegmentOk(cut, segments[n], TailAfter(cut, segments[..n]), parts[n]))
  }

  // The line would take the segment over the target.
  predicate Overfills(cut: Cutting, s: Segment, line: Line) {
    Tokens(cut, s.lines) + cut.estimate(line.text) > cut.target
  }

  // A segment ends only where its next line would take it over the target;
  // `next` are the new lines behind the last one.
  ghost predicate EndsLate(cut: Cutting, segments: seq<Segment>, parts: seq<seq<Line>>, next: seq<Line>) {
    |segments| == |parts|
    && (segments != [] ==>
          var n := |segments| - 1;
          EndsLate(cut, segments[..n], parts[..n], parts[n]) && (next != [] ==> Overfills(cut, segments[n], next[0])))
  }

  lemma ChainedSnoc(cut: Cutting, segments: seq<Segment>, parts: seq<seq<Line>>, s: Segment, mine: seq<Line>)
    requires Chained(cut, segments, parts) && SegmentOk(cut, s, TailAfter(cut, segments), mine) && s.index == |segments| + 1
    ensures Chained(cut, segments + [s], parts + [mine]) && Flatten(parts + [mine]) == Flatten(parts) + mine
  {
    Snoc(segments, s);
    Snoc(parts, mine);
  }

  // The lines held: the tail of the last segment, then `mine`.
  predicate Holds(cut: Cutting, s: State, mine: seq<Line>) {
    && s.lines == TailAfter(cut, s.segments) + mine
    && s.tokens == Tokens(cut, s.lines)
    && (s.lines != [] ==> s.start == s.lines[0].number)
    && (mine != [] ==> s.end == mine[|mine| - 1].number)
    && WithinTarget(cut, s.lines, mine)
    && AllPrinted(s.lines)
  }

  ghost predicate Covers(cut: Cutting, s: State, parts: seq<seq<Line>>, mine: seq<Line>, lines: seq<Line>) {
    && Chained(cut, s.segments, parts) && Holds(cut, s, mine) && Flatten(parts) + mine == lines
    && EndsLate(cut, s.segments, parts, mine)
  }

  lemma TailIsSuffix(cut: Cutting, lines: seq<Line>)
    ensures |TailOf(cut, lines)| <= |lines| && TailOf(cut, lines) == lines[|lines| - |TailOf(cut, lines)|..]
  {
  }

  lemma FlushedSegment(cut: Cutting, s: State, mine: seq<Line>)
    requires Holds(cut, s, mine) && mine != []
    ensures SegmentOk(cut, NewSegment(cut, s), TailAfter(cut, s.segments), mine)
  {
  }

  lemma FlushCovers(cut: Cutting, s: State, parts: seq<seq<Line>>, mine: seq<Line>, lines: seq<Line>)
    requires Covers(cut, s, parts, mine, lines) && mine != []
    ensures Covers(cut, Flush(cut, s), parts + [mine], [], lines)
  {
    FlushedSegment(cut, s, mine);
    ChainedSnoc(cut, s.segments, parts, NewSegment(cut, s), mine);
    TailIsSuffix(cut, s.lines);
    Snoc(s.segments, NewSegment(cut, s));
    Snoc(parts, mine);
    EmptyRight(TailOf(cut, s.lines));
    EmptyRight(lines);
  }

  lemma AppendHolds(cut: Cutting, s: State, mine: seq<Line>, line: Line)
    requires Holds(cut, s, mine) && IsPrinted(line) && (mine == [] || !IsFull(cut, s, line))
    ensures Holds(cut, Append(cut, s, line), mine + [line])
  {
    Assoc(TailAfter(cut, s.segments), mine, [line]);
    Snoc(s.lines, line);
  }

  lemma AppendCovers(cut: Cutting, s: State, parts: seq<seq<Line>>, mine: seq<Line>, lines: seq<Line>, line: Line)
    requires Covers(cut, s, parts, mine, lines) && IsPrinted(line)
    requires mine == [] || !IsFull(cut, s, line)
    requires mine == [] && s.segments != [] ==> Overfills(cut, s.segments[|s.segments| - 1], line)
    ensures Covers(cut, Append(cut, s, line), parts, mine + [line], lines + [line])
  {
    AppendHolds(cut, s, mine, line);
    Assoc(Flatten(parts), mine, [line]);
  }

  // After feeding `lines`: what has been cut and what is held make up the
  // lines taken; the cutter only stops early at the cap.
  lemma {:induction false} FedCovers(cut: Cutting, number: int, lines: seq<Line>)
    returns (parts: seq<seq<Line>>, mine: seq<Line>, taken: seq<Line>)
    requires AllPrinted(lines) && cut.maxSegments >= 1
    ensures var s := FeedAll(cut, Begin(number), lines);
            && Covers(cut, s, parts, mine, taken) && taken <= lines
            && (if s.stopped then |s.segments| == cut.maxSegments && mine == [] && |taken| < |lines|
                else taken == lines && |s.segments| < cut.maxSegments && (lines != [] ==> mine != []))
  {
    if lines == [] {
      parts, mine, taken := [], [], [];
    } else {
      var init, line := lines[..|lines| - 1], lines[|lines| - 1];
      parts, mine, taken := FedCovers(cut, number, init);
      var s := FeedAll(cut, Begin(number), init);
      Whole(lines);
      if !s.stopped {
        parts, mine, taken := FeedCovers(cut, s, parts, mine, init, line);
      }
    }
  }

  lemma FeedCovers(cut: Cutting, s: State, parts: seq<seq<Line>>, mine: seq<Line>, lines: seq<Line>, line: Line)
    returns (parts': seq<seq<Line>>, mine': seq<Line>, taken: seq<Line>)
    requires Covers(cut, s, parts, mine, lines) && IsPrinted(line) && !s.stopped
    requires |s.segments| < cut.maxSegments && (lines != [] ==> mine != [])
    ensures var t := Feed(cut, s, line);
            && Covers(cut, t, parts', mine', taken) && taken <= lines + [line]
            && (if t.stopped then |t.segments| == cut.maxSegments && mine' == [] && |taken| <= |lines|
                else taken == lines + [line] && |t.segments| < cut.maxSegments && mine' != [])
  {
    if IsFull(cut, s, line) {
      HeldIsNew(cut, s.segments, parts, s.lines, mine);
      FlushCovers(cut, s, parts, mine, lines);
      parts', mine', taken := parts + [mine], [], lines;
      if |Flush(cut, s).segments| < cut.maxSegments {
        AppendCovers(cut, Flush(cut, s), parts', [], lines, line);
        mine', taken := [] + [line], lines + [line];
      }
    } else {
      if mine == [] && s.segments != [] {
        LastPartIsNew(cut, s.segments, parts);
      }
      AppendCovers(cut, s, parts, mine, lines, line);
      parts', mine', taken := parts, mine + [line], lines + [line];
    }
  }

  // Lines that are held include a new one.
  lemma HeldIsNew(cut: Cutting, segments: seq<Segment>, parts: seq<seq<Line>>, held: seq<Line>, mine: seq<Line>)
    requires Chained(cut, segments, parts) && held == TailAfter(cut, segments) + mine && held != []
    requires Flatten(parts) + mine != [] ==> mine != []
    ensures mine != []
  {
    if segments != [] {
      LastPartIsNew(cut, segments, parts);
    }
  }

  lemma LastPartIsNew(cut: Cutting, segments: seq<Segment>, parts: seq<seq<Line>>)
    requires Chained(cut, segments, parts) && segments != []
    ensures Flatten(parts) != []
  {
  }

  // Each segment repeats the tail of the one before and adds new lines, and ends
  // only where its next line would be too much; the new lines are a prefix of
  // all lines, and all of them unless the cap stops the loop.
  lemma SegmentsPartition(cut: Cutting, chunks: seq<Speech>) returns (parts: seq<seq<Line>>)
    requires cut.maxSegments >= 1
    ensures var segments := SegmentAll(cut, chunks);
            && Chained(cut, segments, parts) && EndsLate(cut, segments, parts, []) && |segments| <= cut.maxSegments
            && Flatten(parts) <= AllLines(chunks)
            && (|segments| < cut.maxSegments ==> Flatten(parts) == AllLines(chunks))
            && (chunks != [] ==> (FeedAll(cut, Begin(chunks[0].sequence), AllLines(chunks)).stopped <==>
                                  Flatten(parts) != AllLines(chunks)))
  {
    parts := [];
    if chunks != [] {
      var lines, s := AllLines(chunks), FeedAll(cut, Begin(chunks[0].sequence), AllLines(chunks));
      var mine, taken;
      AllLinesPrinted(chunks);
      parts, mine, taken := FedCovers(cut, chunks[0].sequence, lines);
      if s.stopped {
        EmptyRight(Flatten(parts));
      } else if mine != [] {
        FlushCovers(cut, s, parts, mine, lines);
        parts := parts + [mine];
        EmptyRight(Flatten(parts));
      } else {
        NothingHeld(cut, s, parts, mine);
      }
    }
  }

  lemma NothingHeld(cut: Cutting, s: State, parts: seq<seq<Line>>, mine: seq<Line>)
    requires Covers(cut, s, parts, mine, []) && mine == []
    ensures s.segments == [] && s.lines == [] && parts == []
  {
    if s.segments != [] {
      LastPartIsNew(cut, s.segments, parts);
    }
  }

  // ----- what the lines say

  // The lines are the sentences of the chunk, each with the chunk's number.
  ghost predicate Says(chunk: Speech, sentences: seq<string>, gaps: seq<string>, lines: seq<Line>) {
    && WellCut(sentences, gaps) && PutTogether(sentences, gaps) == chunk.text
    && |lines| == |sentences|
    && forall i :: 0 <= i < |lines| ==> lines[i] == Line(chunk.sequence, PrintLine(chunk.sequence, Strip(sentences[i])))
  }

  lemma {:induction false} LineFromIs(number: nat, sentences: seq<string>, i: nat)
    requires i < |sentences|
    ensures |LinesFrom(number, sentences)| == |sentences|
    ensures LinesFrom(number, sentences)[i] == Line(number, PrintLine(number, Strip(sentences[i])))
  {
    var n := |sentences| - 1;
    if i < n {
      LineFromIs(number, sentences[..n], i);
    } else if n > 0 {
      LineFromIs(number, sentences[..n], n - 1);
    }
  }

  ghost predicate IsSaid(chunk: Speech, lines: seq<Line>) {
    exists sentences, gaps :: Says(chunk, sentences, gaps, lines)
  }

  lemma ChunkIsSaid(chunk: Speech)
    ensures IsSaid(chunk, LinesOf(chunk))
  {
    var gaps := SentencesMakeUp(chunk.text);
    forall i | 0 <= i < |Sentences(chunk.text)|
      ensures |LinesOf(chunk)| == |Sentences(chunk.text)|
      ensures LinesOf(chunk)[i] == Line(chunk.sequence, PrintLine(chunk.sequence, Strip(Sentences(chunk.text)[i])))
    {
      LineFromIs(chunk.sequence, Sentences(chunk.text), i);
    }
    assert Says(chunk, Sentences(chunk.text), gaps, LinesOf(chunk));
  }

  // The lines of all chunks, chunk by chunk, say all of their texts.
  ghost predicate AllSaid(chunks: seq<Speech>, groups: seq<seq<Line>>) {
    && |groups| == |chunks|
    && (chunks != [] ==>
          var n := |chunks| - 1;
          AllSaid(chunks[..n], groups[..n]) && IsSaid(chunks[n], groups[n]))
  }

  lemma {:induction false} AllLinesSay(chunks: seq<Speech>) returns (groups: seq<seq<Line>>)
    ensures AllSaid(chunks, groups) && Flatten(groups) == AllLines(chunks)
  {
    groups := [];
    if chunks != [] {
      var chunk := chunks[|chunks| - 1];
      groups := AllLinesSay(chunks[..|chunks| - 1]);
      ChunkIsSaid(chunk);
      Snoc(groups, LinesOf(chunk));
      groups := groups + [LinesOf(chunk)];
    }
  }

  // Unless the cap stops the loop, the new lines of the segments say all that
  // the chunks say.
  lemma SegmentsSayAll(cut: Cutting, chunks: seq<Speech>) returns (parts: seq<seq<Line>>, groups: seq<seq<Line>>)
    requires cut.maxSegments >= 1
    ensures var segments := SegmentAll(cut, chunks);
            && Chained(cut, segments, parts) && AllSaid(chunks, groups) && Flatten(parts) <= Flatten(groups)
            && (|segments| < cut.maxSegments ==> Flatten(parts) == Flatten(groups))
            && (chunks != [] ==> (FeedAll(cut, Begin(chunks[0].sequence), Flatten(groups)).stopped <==>
                                  Flatten(parts) != Flatten(groups)))
  {
    parts := SegmentsPartition(cut, chunks);
    groups := AllLinesSay(chunks);
  }

  // ----- what a segment repeats

  lemma {:induction false} TokensFront(cut: Cutting, lines: seq<Line>)
    requires lines != []
    ensures Tokens(cut, lines) == cut.estimate(lines[0].text) + Tokens(cut, lines[1..])
  {
    if |lines| > 1 {
      TokensFront(cut, lines[..|lines| - 1]);
      assert lines[..|lines| - 1][1..] == lines[1..][..|lines| - 2];
    }
  }

  // No shorter tail reaches the overlap.
  predicate ShortOfOverlap(cut: Cutting, lines: seq<Line>, k: nat) {
    forall j :: k <= j < |lines| ==> Tokens(cut, lines[j..]) < cut.overlap
  }

  lemma {:induction false} TailFromIsLast(cut: Cutting, lines: seq<Line>, k: nat)
    requires cut.overlap > 0 && k <= |lines| && ShortOfOverlap(cut, lines, k)
    ensures var start := TailFrom(cut, lines, k, Tokens(cut, lines[k..]));
            && (start > 0 ==> Tokens(cut, lines[start..]) >= cut.overlap)
            && ShortOfOverlap(cut, lines, start + 1)
  {
    if k > 0 {
      TokensFront(cut, lines[k - 1..]);
      assert lines[k - 1..][1..] == lines[k..];
      if Tokens(cut, lines[k - 1..]) < cut.overlap {
        TailFromIsLast(cut, lines, k - 1);
      }
    }
  }

  // What is repeated is the shortest tail that reaches the overlap, or everything.
  lemma RepeatedIsShortest(cut: Cutting, lines: seq<Line>) returns (start: nat)
    ensures start <= |lines| && TailOf(cut, lines) == lines[start..]
    ensures cut.overlap == 0 ==> start == |lines|
    ensures cut.overlap > 0 ==> ShortOfOverlap(cut, lines, start + 1)
    ensures cut.overlap > 0 && start > 0 ==> Tokens(cut, lines[start..]) >= cut.overlap
  {
    start := |lines|;
    if cut.overlap > 0 {
      start := TailFrom(cut, lines, |lines|, 0);
      TailFromIsLast(cut, lines, |lines|);
    }
  }
}

// The useful chunks of a conversation up to the first number that is not
// settled yet: what a close that is not final can put into windows.

module SpokenLine {
  import opened Text
  import opened Models
  import opened Windowing
  import opened ChunkLists
  import opened Store
  import opened Incremental
  import opened Lookups

  // The transcript of a number is settled: it is there, or it never will be.
  predicate IsSettled(c: Chunk) {
    c.stt.SttCompleted? || IsTerminalFailed(c)
  }

  predicate Settled(chunks: seq<Chunk>, n: int) {
    Lookup(chunks, n).Some? && IsSettled(Lookup(chunks, n).value)
  }

  ghost predicate AllSettled(chunks: seq<Chunk>, first: nat, n: int) {
    forall m :: first <= m < n ==> Settled(chunks, m)
  }

  function Failures(chunks: seq<Chunk>): set<int> {
    if chunks == [] then {}
    else if IsTerminalFailed(chunks[|chunks| - 1]) then Failures(chunks[..|chunks| - 1]) + {chunks[|chunks| - 1].speech.sequence}
    else Failures(chunks[..|chunks| - 1])
  }

  function Top(chunks: seq<Chunk>): nat {
    if chunks == [] then 0 else chunks[|chunks| - 1].speech.sequence
  }

  function Line(chunks: seq<Chunk>, first: nat): seq<Speech> {
    Useful(Walk(BySequence(CompletedBetween(chunks, 0, Top(chunks))), Failures(chunks), first, Top(chunks)))
  }

  lemma {:induction false} FailuresLookup(chunks: seq<Chunk>, n: int)
    requires Ordered(chunks)
    ensures n in Failures(chunks) <==> Lookup(chunks, n).Some? && IsTerminalFailed(Lookup(chunks, n).value)
  {
    if chunks != [] {
      var init := chunks[..|chunks| - 1];
      FailuresLookup(init, n);
      if chunks[|chunks| - 1].speech.sequence == n {
        LookupAbove(init, n);
      }
    }
  }

  lemma TopIsHighest(chunks: seq<Chunk>, n: int)
    requires Ordered(chunks) && Lookup(chunks, n).Some?
    ensures 0 <= n <= Top(chunks)
  {
    LookupNumber(chunks, n);
  }

  lemma LineAscends(chunks: seq<Chunk>, first: nat)
    ensures Ascending(Line(chunks, first)) && AllUseful(Line(chunks, first))
  {
    var list := CompletedBetween(chunks, 0, Top(chunks));
    BySequenceKeys(list);
    WalkAscends(BySequence(list), Failures(chunks), first, Top(chunks));
    UsefulAscends(Walk(BySequence(list), Failures(chunks), first, Top(chunks)));
    UsefulIsUseful(Walk(BySequence(list), Failures(chunks), first, Top(chunks)));
  }

  // A number of the line, and its chunk.
  ghost predicate InLine(chunks: seq<Chunk>, first: nat, n: int) {
    && first <= n && AllSettled(chunks, first, n)
    && Lookup(chunks, n).Some? && IsCompletedUseful(Lookup(chunks, n).value)
  }

  lemma PassableIsSettled(chunks: seq<Chunk>, m: int)
    requires Ordered(chunks)
    ensures Passable(CompletedBetween(chunks, 0, Top(chunks)), Failures(chunks), m) <==> Settled(chunks, m)
  {
    BetweenFind(chunks, 0, Top(chunks), m);
    FailuresLookup(chunks, m);
    if Lookup(chunks, m).Some? {
      TopIsHighest(chunks, m);
    }
  }

  lemma LineFind(chunks: seq<Chunk>, first: nat, n: int)
    requires Ordered(chunks)
    ensures Find(Line(chunks, first), n) == if InLine(chunks, first, n) then Some(Lookup(chunks, n).value.speech) else None
  {
    var list, top := CompletedBetween(chunks, 0, Top(chunks)), Top(chunks);
    BySequenceKeys(list);
    WalkAscends(BySequence(list), Failures(chunks), first, top);
    UsefulFind(Walk(BySequence(list), Failures(chunks), first, top), n);
    WalkFind(list, Failures(chunks), first, top, n);
    BetweenFind(chunks, 0, top, n);
    if Lookup(chunks, n).Some? {
      TopIsHighest(chunks, n);
    }
    ClearIsSettled(chunks, first, n);
  }

  lemma InLineAt(chunks: seq<Chunk>, first: nat, i: nat)
    requires Ordered(chunks) && i < |Line(chunks, first)|
    ensures InLine(chunks, first, Line(chunks, first)[i].sequence)
  {
    LineAscends(chunks, first);
    FindAt(Line(chunks, first), i);
    LineFind(chunks, first, Line(chunks, first)[i].sequence);
  }

  lemma SettledThrough(chunks: seq<Chunk>, first: nat, n: int)
    requires InLine(chunks, first, n)
    ensures AllSettled(chunks, first, n + 1)
  {
  }

  lemma ClearIsSettled(chunks: seq<Chunk>, first: nat, n: int)
    requires Ordered(chunks)
    ensures Clear(CompletedBetween(chunks, 0, Top(chunks)), Failures(chunks), first, n) <==> AllSettled(chunks, first, n)
  {
    forall m | first <= m < n
      ensures Passable(CompletedBetween(chunks, 0, Top(chunks)), Failures(chunks), m) <==> Settled(chunks, m)
    {
      PassableIsSettled(chunks, m);
    }
  }

  // The same transcripts, however they are marked.
  predicate SameTranscript(a: seq<Chunk>, b: seq<Chunk>, n: int) {
    match (Lookup(a, n), Lookup(b, n))
    case (Some(x), Some(y)) =>
      x.speech == y.speech && x.stt == y.stt && x.terminal == y.terminal && x.permanentFailure == y.permanentFailure
    case (None, None) => true
    case _ => false
  }

  // Marks do not change the line.
  lemma LineOfSame(a: seq<Chunk>, b: seq<Chunk>, first: nat)
    requires Ordered(a) && Ordered(b) && forall n :: SameTranscript(a, b, n)
    ensures Line(a, first) == Line(b, first)
  {
    LineAscends(a, first);
    LineAscends(b, first);
    forall n: int
      ensures Find(Line(a, first), n) == Find(Line(b, first), n)
    {
      LineFind(a, first, n);
      LineFind(b, first, n);
      AllSettledSame(a, b, first, n);
      assert SameTranscript(a, b, n);
    }
    SameContent(Line(a, first), Line(b, first));
  }

  lemma AllSettledSame(a: seq<Chunk>, b: seq<Chunk>, first: nat, n: int)
    requires forall m :: SameTranscript(a, b, m)
    ensures AllSettled(a, first, n) <==> AllSettled(b, first, n)
  {
    forall m | first <= m < n
      ensures Settled(a, m) <==> Settled(b, m)
    {
      assert SameTranscript(a, b, m);
    }
  }

  // ----- growing

  lemma {:induction false} PrefixFromContent(a: seq<Speech>, b: seq<Speech>)
    requires Ascending(a) && Ascending(b)
    requires forall n :: Find(a, n).Some? ==> Find(b, n) == Find(a, n)
    requires forall n, i :: 0 <= i < |a| && Find(b, n).Some? && Find(a, n).None? ==> a[i].sequence < n
    ensures a <= b
  {
    if a != [] {
      FindNumber(b, LastOf(a));
    }
    if a != [] && Find(a, b[|b| - 1].sequence).None? {
      var init, y := b[..|b| - 1], b[|b| - 1].sequence;
      FindAbove(init, y);
      forall n
        ensures Find(init, n) == if n == y then None else Find(b, n)
      {
      }
      PrefixFromContent(a, init);
    } else if a != [] {
      forall n
        ensures Find(a, n) == Find(b, n)
      {
        if Find(b, n).Some? && Find(a, n).None? {
          FindNumber(a, b[|b| - 1].sequence);
          FindNumber(b, n);
        }
      }
      SameContent(a, b);
    }
  }

  function LastOf(a: seq<Speech>): nat
    requires a != []
    ensures Find(a, LastOf(a)).Some?
  {
    a[|a| - 1].sequence
  }

  // Settled transcripts stay as they are.
  ghost predicate Kept(before: seq<Chunk>, after: seq<Chunk>) {
    forall n :: Settled(before, n) ==> Lookup(after, n) == Lookup(before, n)
  }

  lemma LineGrows(before: seq<Chunk>, after: seq<Chunk>, first: nat)
    requires Ordered(before) && Ordered(after) && Kept(before, after)
    ensures Line(before, first) <= Line(after, first)
  {
    LineAscends(before, first);
    LineAscends(after, first);
    forall n: int
      ensures Find(Line(before, first), n).Some? ==> Find(Line(after, first), n) == Find(Line(before, first), n)
    {
      LineFind(before, first, n);
      LineFind(after, first, n);
      assert Settled(before, n) ==> Lookup(after, n) == Lookup(before, n);
      if InLine(before, first, n) {
        SettledStay(before, after, first, n);
      }
    }
    forall n: int, i | 0 <= i < |Line(before, first)| && Find(Line(after, first), n).Some? && Find(Line(before, first), n).None?
      ensures Line(before, first)[i].sequence < n
    {
      NewcomersFollow(before, after, first, n, i);
    }
    PrefixFromContent(Line(before, first), Line(after, first));
  }

  lemma SettledStay(before: seq<Chunk>, after: seq<Chunk>, first: nat, n: int)
    requires Kept(before, after) && AllSettled(before, first, n)
    ensures AllSettled(after, first, n)
  {
    forall m | first <= m < n
      ensures Settled(after, m)
    {
      assert Settled(before, m);
    }
  }

  // A number before one of the line is in the line too, if it ever is.
  lemma EarlierWasThere(before: seq<Chunk>, after: seq<Chunk>, first: nat, k: int, n: int)
    requires Kept(before, after) && InLine(before, first, k) && InLine(after, first, n) && n <= k
    ensures InLine(before, first, n)
  {
    assert Settled(before, n);
  }

  lemma NewcomersFollow(before: seq<Chunk>, after: seq<Chunk>, first: nat, n: int, i: nat)
    requires Ordered(before) && Ordered(after) && Kept(before, after)
    requires i < |Line(before, first)| && Find(Line(after, first), n).Some? && Find(Line(before, first), n).None?
    ensures Line(before, first)[i].sequence < n
  {
    var k := Line(before, first)[i].sequence;
    InLineAt(before, first, i);
    LineFind(before, first, n);
    LineFind(after, first, n);
    if n <= k {
      EarlierWasThere(before, after, first, k, n);
    }
  }
}

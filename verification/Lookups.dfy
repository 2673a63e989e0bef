// Lists of chunks seen as maps from sequence number to chunk.

module Lookups {
  import opened Seqs
  import opened Text
  import opened Models
  import opened Windowing
  import opened ChunkLists
  import opened Store
  import opened Incremental

  function Lookup(chunks: seq<Chunk>, n: int): Option<Chunk> {
    if chunks == [] then None
    else if chunks[|chunks| - 1].speech.sequence == n then Some(chunks[|chunks| - 1])
    else Lookup(chunks[..|chunks| - 1], n)
  }

  function Find(list: seq<Speech>, n: int): Option<Speech> {
    if list == [] then None
    else if list[|list| - 1].sequence == n then Some(list[|list| - 1])
    else Find(list[..|list| - 1], n)
  }

  lemma {:induction false} LookupNumber(chunks: seq<Chunk>, n: int)
    requires Lookup(chunks, n).Some?
    ensures Lookup(chunks, n).value.speech.sequence == n
    ensures exists i :: 0 <= i < |chunks| && chunks[i] == Lookup(chunks, n).value
  {
    if chunks[|chunks| - 1].speech.sequence != n {
      LookupNumber(chunks[..|chunks| - 1], n);
    }
  }

  lemma {:induction false} FindNumber(list: seq<Speech>, n: int)
    requires Find(list, n).Some?
    ensures Find(list, n).value.sequence == n
    ensures exists i :: 0 <= i < |list| && list[i] == Find(list, n).value
  {
    if list[|list| - 1].sequence != n {
      FindNumber(list[..|list| - 1], n);
    }
  }

  lemma {:induction false} LookupAt(chunks: seq<Chunk>, i: nat)
    requires Ordered(chunks) && i < |chunks|
    ensures Lookup(chunks, chunks[i].speech.sequence) == Some(chunks[i])
  {
    if i < |chunks| - 1 {
      LookupAt(chunks[..|chunks| - 1], i);
    }
  }

  lemma {:induction false} FindAt(list: seq<Speech>, i: nat)
    requires Ascending(list) && i < |list|
    ensures Find(list, list[i].sequence) == Some(list[i])
  {
    if i < |list| - 1 {
      FindAt(list[..|list| - 1], i);
    }
  }

  lemma {:induction false} LookupAbove(chunks: seq<Chunk>, n: int)
    requires forall i :: 0 <= i < |chunks| ==> chunks[i].speech.sequence != n
    ensures Lookup(chunks, n) == None
  {
    if chunks != [] {
      LookupAbove(chunks[..|chunks| - 1], n);
    }
  }

  lemma {:induction false} FindAbove(list: seq<Speech>, n: int)
    requires forall i :: 0 <= i < |list| ==> list[i].sequence != n
    ensures Find(list, n) == None
  {
    if list != [] {
      FindAbove(list[..|list| - 1], n);
    }
  }

  lemma FindsLast(list: seq<Speech>)
    requires list != []
    ensures exists n :: Find(list, n).Some?
  {
    assert Find(list, list[|list| - 1].sequence).Some?;
  }

  // Ascending lists with the same content are the same list.
  lemma {:induction false} SameContent(a: seq<Speech>, b: seq<Speech>)
    requires Ascending(a) && Ascending(b)
    requires forall n :: Find(a, n) == Find(b, n)
    ensures a == b
  {
    if a == [] && b != [] {
      FindsLast(b);
    } else if b == [] && a != [] {
      FindsLast(a);
    } else if a != [] {
      SameLast(a, b);
      var m, a', b' := a[|a| - 1].sequence, a[..|a| - 1], b[..|b| - 1];
      FindAbove(a', m);
      FindAbove(b', m);
      forall n
        ensures Find(a', n) == Find(b', n)
      {
        assert Find(a, n) == Find(b, n);
      }
      SameContent(a', b');
      Whole(a);
      Whole(b);
    }
  }

  lemma SameLast(a: seq<Speech>, b: seq<Speech>)
    requires Ascending(a) && Ascending(b) && a != [] && b != []
    requires forall n :: Find(a, n) == Find(b, n)
    ensures a[|a| - 1] == b[|b| - 1]
  {
    var x, y := a[|a| - 1], b[|b| - 1];
    assert Find(b, x.sequence) == Some(x) && Find(a, y.sequence) == Some(y);
    FindNumber(b, x.sequence);
    FindNumber(a, y.sequence);
  }

  // ----- what each reader finds

  lemma {:induction false} UpToLookup(chunks: seq<Chunk>, through: Option<int>, n: int)
    ensures Lookup(UpTo(chunks, through), n) ==
            if through.None? || n <= through.value then Lookup(chunks, n) else None
  {
    if chunks != [] {
      UpToLookup(chunks[..|chunks| - 1], through, n);
      Snoc(UpTo(chunks[..|chunks| - 1], through), chunks[|chunks| - 1]);
    }
  }

  lemma {:induction false} UpToOrdered(chunks: seq<Chunk>, through: Option<int>, limit: int)
    requires Ordered(chunks) && forall i :: 0 <= i < |chunks| ==> chunks[i].speech.sequence < limit
    ensures Ordered(UpTo(chunks, through))
    ensures forall i :: 0 <= i < |UpTo(chunks, through)| ==> UpTo(chunks, through)[i].speech.sequence < limit
  {
    if chunks != [] {
      UpToOrdered(chunks[..|chunks| - 1], through, chunks[|chunks| - 1].speech.sequence);
    }
  }

  lemma {:induction false} SkippableLookup(chunks: seq<Chunk>, n: int)
    requires Ordered(chunks)
    ensures n in SkippableNumbers(chunks) <==> Lookup(chunks, n).Some? && IsSkippable(Lookup(chunks, n).value)
  {
    if chunks != [] {
      var init := chunks[..|chunks| - 1];
      SkippableLookup(init, n);
      if chunks[|chunks| - 1].speech.sequence == n {
        LookupAbove(init, n);
      }
    }
  }

  lemma {:induction false} PresentLookup(chunks: seq<Chunk>, n: int)
    ensures n in PresentNumbers(chunks) <==> Lookup(chunks, n).Some?
  {
    if chunks != [] {
      PresentLookup(chunks[..|chunks| - 1], n);
    }
  }

  lemma {:induction false} UsefulNumbersLookup(chunks: seq<Chunk>, n: int)
    requires Ordered(chunks)
    ensures n in UsefulNumbers(chunks) <==> Lookup(chunks, n).Some? && IsCompletedUseful(Lookup(chunks, n).value)
  {
    if chunks != [] {
      var init := chunks[..|chunks| - 1];
      UsefulNumbersLookup(init, n);
      if chunks[|chunks| - 1].speech.sequence == n {
        LookupAbove(init, n);
      }
    }
  }

  lemma {:induction false} FailedLookup(chunks: seq<Chunk>, start: nat, skippable: set<int>, n: int)
    requires n in FailedNumbers(chunks, start, skippable) && Ordered(chunks)
    ensures Lookup(chunks, n).Some? && Lookup(chunks, n).value.stt.SttFailed? && n in skippable
  {
    var init := chunks[..|chunks| - 1];
    if n in FailedNumbers(init, start, skippable) {
      FailedLookup(init, start, skippable, n);
      LookupNumber(init, n);
    }
  }

  lemma {:induction false} UnwindowedFind(chunks: seq<Chunk>, start: nat, n: int)
    requires Ordered(chunks)
    ensures Find(Unwindowed(chunks, start), n) ==
            match Lookup(chunks, n)
            case None => None
            case Some(c) => if IsUnwindowed(c) && n >= start then Some(c.speech) else None
  {
    if chunks != [] {
      var init, last := chunks[..|chunks| - 1], chunks[|chunks| - 1];
      UnwindowedFind(init, start, n);
      Snoc(Unwindowed(init, start), last.speech);
      if last.speech.sequence == n {
        LookupAbove(init, n);
      }
    }
  }

  lemma {:induction false} UnwindowedAscends(chunks: seq<Chunk>, start: nat, limit: int)
    requires Ordered(chunks) && forall i :: 0 <= i < |chunks| ==> chunks[i].speech.sequence < limit
    ensures Ascending(Unwindowed(chunks, start)) && Below(Unwindowed(chunks, start), limit) && From(Unwindowed(chunks, start), start)
  {
    if chunks != [] {
      UnwindowedAscends(chunks[..|chunks| - 1], start, chunks[|chunks| - 1].speech.sequence);
    }
  }

  lemma {:induction false} BetweenFind(chunks: seq<Chunk>, start: nat, end: nat, n: int)
    requires Ordered(chunks)
    ensures Find(CompletedBetween(chunks, start, end), n) ==
            match Lookup(chunks, n)
            case None => None
            case Some(c) => if c.stt.SttCompleted? && start <= n <= end then Some(c.speech) else None
  {
    if chunks != [] {
      var init, last := chunks[..|chunks| - 1], chunks[|chunks| - 1];
      BetweenFind(init, start, end, n);
      Snoc(CompletedBetween(init, start, end), last.speech);
      if last.speech.sequence == n {
        LookupAbove(init, n);
      }
    }
  }

  lemma {:induction false} BetweenAscends(chunks: seq<Chunk>, start: nat, end: nat, limit: int)
    requires Ordered(chunks) && forall i :: 0 <= i < |chunks| ==> chunks[i].speech.sequence < limit
    ensures Ascending(CompletedBetween(chunks, start, end))
    ensures Below(CompletedBetween(chunks, start, end), limit) && Below(CompletedBetween(chunks, start, end), end + 1)
  {
    if chunks != [] {
      BetweenAscends(chunks[..|chunks| - 1], start, end, chunks[|chunks| - 1].speech.sequence);
    }
  }

  lemma {:induction false} UsefulFind(list: seq<Speech>, n: int)
    requires Ascending(list)
    ensures Find(Useful(list), n) == if Find(list, n).Some? && IsUseful(Find(list, n).value) then Find(list, n) else None
  {
    if list != [] {
      var init, last := list[..|list| - 1], list[|list| - 1];
      UsefulFind(init, n);
      Snoc(Useful(init), last);
      if last.sequence == n {
        FindAbove(init, n);
      }
    }
  }

  lemma {:induction false} WithoutFind(list: seq<Speech>, numbers: set<int>, n: int)
    ensures Find(Without(list, numbers), n) == if n in numbers then None else Find(list, n)
  {
    if list != [] {
      WithoutFind(list[..|list| - 1], numbers, n);
      Snoc(Without(list[..|list| - 1], numbers), list[|list| - 1]);
    }
  }

  lemma {:induction false} WithoutAscends(list: seq<Speech>, numbers: set<int>, low: int, limit: int)
    requires Ascending(list) && From(list, low) && Below(list, limit)
    ensures Ascending(Without(list, numbers)) && From(Without(list, numbers), low) && Below(Without(list, numbers), limit)
  {
    if list != [] {
      WithoutAscends(list[..|list| - 1], numbers, low, list[|list| - 1].sequence);
    }
  }

  lemma {:induction false} NumbersFind(list: seq<Speech>, n: int)
    ensures n in Numbers(Sequences(list)) <==> Find(list, n).Some?
  {
    if list != [] {
      NumbersFind(list[..|list| - 1], n);
      Snoc(Sequences(list[..|list| - 1]), list[|list| - 1].sequence);
    }
  }

  lemma {:induction false} BySequenceFind(list: seq<Speech>, n: nat)
    ensures n in BySequence(list) <==> Find(list, n).Some?
    ensures n in BySequence(list) ==> BySequence(list)[n] == Find(list, n).value
  {
    if list != [] {
      BySequenceFind(list[..|list| - 1], n);
    }
  }

  lemma {:induction false} ExcludedLookup(chunks: seq<Chunk>, numbers: set<int>, reason: ExclusionReason, n: int)
    ensures Lookup(Excluded(chunks, numbers, reason), n) ==
            match Lookup(chunks, n) case None => None case Some(c) => Some(ExcludeOne(c, numbers, reason))
  {
    if chunks != [] {
      var init, last := chunks[..|chunks| - 1], chunks[|chunks| - 1];
      ExcludedLookup(init, numbers, reason, n);
      Snoc(Excluded(init, numbers, reason), ExcludeOne(last, numbers, reason));
    }
  }

  lemma {:induction false} ClaimedLookup(chunks: seq<Chunk>, numbers: set<int>, id: nat, n: int)
    ensures Lookup(Claimed(chunks, numbers, id), n) ==
            match Lookup(chunks, n) case None => None case Some(c) => Some(ClaimOne(c, numbers, id))
  {
    if chunks != [] {
      var init, last := chunks[..|chunks| - 1], chunks[|chunks| - 1];
      ClaimedLookup(init, numbers, id, n);
      Snoc(Claimed(init, numbers, id), ClaimOne(last, numbers, id));
    }
  }

  // ----- what the walk over a list reaches

  predicate Passable(list: seq<Speech>, skippable: set<int>, m: int) {
    Find(list, m).Some? || m in skippable
  }

  // The walk reaches `n` when every number before it is in the list or may be skipped.
  ghost predicate Clear(list: seq<Speech>, skippable: set<int>, from: int, n: int) {
    forall m :: from <= m < n ==> Passable(list, skippable, m)
  }

  lemma {:induction false} WalkFind(list: seq<Speech>, skippable: set<int>, expected: nat, end: nat, n: int)
    ensures Find(Walk(BySequence(list), skippable, expected, end), n) ==
            if expected <= n <= end && Clear(list, skippable, expected, n) then Find(list, n) else None
    decreases end + 1 - expected
  {
    BySequenceKeys(list);
    BySequenceFind(list, expected);
    if expected <= end {
      if Passable(list, skippable, expected) {
        WalkFind(list, skippable, expected + 1, end, n);
        assert Clear(list, skippable, expected, n) || n <= expected ==> Clear(list, skippable, expected + 1, n);
        assert Clear(list, skippable, expected + 1, n) ==> Clear(list, skippable, expected, n);
        if expected in BySequence(list) {
          WalkAscends(BySequence(list), skippable, expected + 1, end);
          FindPrepend(BySequence(list)[expected], Walk(BySequence(list), skippable, expected + 1, end), n);
        }
      } else if n == expected {
        assert Find(list, n) == None;
      } else if expected < n {
        assert !Passable(list, skippable, expected);
      }
    }
  }

  lemma {:induction false} FindPrepend(s: Speech, list: seq<Speech>, n: int)
    ensures Find([s] + list, n) == if Find(list, n).Some? then Find(list, n) else if s.sequence == n then Some(s) else None
  {
    if list == [] {
      EmptyRight([s]);
    } else {
      FindPrepend(s, list[..|list| - 1], n);
      InitOfConcat([s], list);
    }
  }

  lemma ReachableFind(list: seq<Speech>, skippable: set<int>, n: int)
    requires list != [] && Ascending(list)
    ensures Find(Reachable(list, skippable), n) == if Clear(list, skippable, list[0].sequence, n) then Find(list, n) else None
  {
    AscendingBounds(list);
    WalkFind(list, skippable, MinSequence(list), MaxSequence(list), n);
    if Find(list, n).Some? {
      FindNumber(list, n);
      SequenceBounds(list);
    }
  }

  lemma {:induction false} AscendingBounds(list: seq<Speech>)
    requires list != [] && Ascending(list)
    ensures MinSequence(list) == list[0].sequence && MaxSequence(list) == list[|list| - 1].sequence
  {
    if |list| > 1 {
      AscendingBounds(list[..|list| - 1]);
    }
  }
}

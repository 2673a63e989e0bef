// Facts about lists of chunks: filters, totals and sequence numbers.

module ChunkLists {
  import opened Models
  import opened Windowing

  predicate AllUseful(chunks: seq<Speech>) {
    forall i :: 0 <= i < |chunks| ==> IsUseful(chunks[i])
  }

  predicate Below(chunks: seq<Speech>, n: int) {
    forall i :: 0 <= i < |chunks| ==> chunks[i].sequence < n
  }

  predicate From(chunks: seq<Speech>, n: int) {
    forall i :: 0 <= i < |chunks| ==> n <= chunks[i].sequence
  }

  lemma FromAppend(chunks: seq<Speech>, c: Speech, n: int)
    requires From(chunks, n) && n <= c.sequence
    ensures From(chunks + [c], n)
  {
  }

  // The last chunk of an ascending list lies above the others.
  lemma LastAscends(chunks: seq<Speech>, low: int)
    requires chunks != [] && Ascending(chunks) && From(chunks, low)
    ensures var init, c := chunks[..|chunks| - 1], chunks[|chunks| - 1];
            && chunks == init + [c] && Ascending(init) && From(init, low)
            && (if init == [] then low else init[|init| - 1].sequence) <= c.sequence
  {
  }

  lemma {:induction false} UsefulIsUseful(chunks: seq<Speech>)
    ensures AllUseful(Useful(chunks))
  {
    if chunks != [] {
      UsefulIsUseful(chunks[..|chunks| - 1]);
    }
  }

  lemma UsefulAppend(a: seq<Speech>, c: Speech)
    ensures Useful(a + [c]) == if IsUseful(c) then Useful(a) + [c] else Useful(a)
    ensures Empties(a + [c]) == if IsUseful(c) then Empties(a) else Empties(a) + [c]
  {
    assert (a + [c])[..|a|] == a;
  }

  lemma {:induction false} UsefulConcat(a: seq<Speech>, b: seq<Speech>)
    ensures Useful(a + b) == Useful(a) + Useful(b)
  {
    if b == [] {
      assert a + b == a;
    } else {
      UsefulConcat(a, b[..|b| - 1]);
      assert (a + b)[..|a + b| - 1] == a + b[..|b| - 1];
    }
  }

  lemma {:induction false} EmptiesConcat(a: seq<Speech>, b: seq<Speech>)
    ensures Empties(a + b) == Empties(a) + Empties(b)
  {
    if b == [] {
      assert a + b == a;
    } else {
      EmptiesConcat(a, b[..|b| - 1]);
      assert (a + b)[..|a + b| - 1] == a + b[..|b| - 1];
    }
  }

  lemma {:induction false} SequencesConcat(a: seq<Speech>, b: seq<Speech>)
    ensures Sequences(a + b) == Sequences(a) + Sequences(b)
  {
    if b == [] {
      assert a + b == a;
    } else {
      SequencesConcat(a, b[..|b| - 1]);
      assert (a + b)[..|a + b| - 1] == a + b[..|b| - 1];
    }
  }

  lemma {:induction false} DurationConcat(a: seq<Speech>, b: seq<Speech>)
    ensures TotalDuration(a + b) == TotalDuration(a) + TotalDuration(b)
  {
    if b == [] {
      assert a + b == a;
    } else {
      DurationConcat(a, b[..|b| - 1]);
      assert (a + b)[..|a + b| - 1] == a + b[..|b| - 1];
    }
  }

  lemma {:induction false} SequencesAt(chunks: seq<Speech>, i: nat)
    requires i < |chunks|
    ensures Sequences(chunks)[i] == chunks[i].sequence
  {
    if i < |chunks| - 1 {
      SequencesAt(chunks[..|chunks| - 1], i);
    }
  }

  lemma {:induction false} IdsAre(chunks: seq<Speech>)
    ensures forall i :: 0 <= i < |chunks| ==> chunks[i].sequence in Ids(chunks)
    ensures forall n :: n in Ids(chunks) ==> exists i :: 0 <= i < |chunks| && chunks[i].sequence == n
  {
    if chunks != [] {
      IdsAre(chunks[..|chunks| - 1]);
    }
  }

  // The chunks of a window that its overlap does not hold.
  lemma {:induction false} OwnedAfterOverlap(overlap: seq<Speech>, mine: seq<Speech>, floor: int)
    requires Below(overlap, floor) && From(mine, floor)
    ensures OwnedSequences(overlap + mine, Ids(overlap)) == Sequences(mine)
  {
    if mine == [] {
      assert overlap + mine == overlap;
      OwnsNothing(overlap, Ids(overlap));
    } else {
      var init := mine[..|mine| - 1];
      OwnedAfterOverlap(overlap, init, floor);
      assert (overlap + mine)[..|overlap + mine| - 1] == overlap + init;
      IdsAre(overlap);
    }
  }

  lemma {:induction false} UsefulWithin(chunks: seq<Speech>, low: int, high: int)
    requires From(chunks, low) && Below(chunks, high)
    ensures From(Useful(chunks), low) && Below(Useful(chunks), high)
  {
    if chunks != [] {
      UsefulWithin(chunks[..|chunks| - 1], low, high);
    }
  }

  lemma {:induction false} UsefulAscends(chunks: seq<Speech>)
    requires Ascending(chunks)
    ensures Ascending(Useful(chunks))
  {
    if chunks != [] {
      var init, last := chunks[..|chunks| - 1], chunks[|chunks| - 1];
      UsefulAscends(init);
      UsefulWithin(init, 0, last.sequence);
    }
  }

  lemma {:induction false} NothingUseful(chunks: seq<Speech>)
    requires Useful(chunks) == []
    ensures Empties(chunks) == chunks
  {
    if chunks != [] {
      NothingUseful(chunks[..|chunks| - 1]);
    }
  }
}

// Collecting the chunks that a model gets to read
// (services/conversation/semantic_input.py).

module SemanticInput {
  import opened Seqs
  import opened Text
  import opened Models
  import Incremental

  // A stored transcript as this module reads it: `sequence` is None when the
  // stored number does not convert to an integer, `exclusion` is the stored
  // reason in lower case.
  datatype Row = Row(
    conversation: string,
    sequence: Option<int>,
    text: string,
    stt: SttStatus,
    exclusion: string
  )

  datatype Query = Query(conversation: string, start: Option<int>, end: Option<int>, owned: set<int>)

  datatype Rejection = WrongConversation | OutsideRange | EmptyText | FailedStt | Damaged | DuplicateSequence | InvalidSequence

  // ----- checkpoints

  datatype Checkpoint = Checkpoint(
    start: int,
    end: int,
    isFinalPartial: bool,
    extractionSkipped: bool,
    isRawFinal: bool,
    status: Option<WindowStatus>,
    hasResult: bool
  )

  predicate OwnsItsRange(w: Checkpoint) {
    && !w.isFinalPartial && !w.extractionSkipped && !w.isRawFinal
    && (w.status.None? || w.status.value.WindowCompleted?)
    && w.hasResult
  }

  // `_checkpoint_owned_sequences`
  function CheckpointOwned(windows: seq<Checkpoint>): set<int> {
    if windows == [] then {}
    else
      var w := windows[|windows| - 1];
      if OwnsItsRange(w) then CheckpointOwned(windows[..|windows| - 1]) + Incremental.Range(w.start, w.end + 1)
      else CheckpointOwned(windows[..|windows| - 1])
  }

  lemma {:induction false} CheckpointOwns(windows: seq<Checkpoint>, n: int)
    ensures n in CheckpointOwned(windows) <==>
            exists i :: 0 <= i < |windows| && IsCheckpoint(windows[i]) && windows[i].start <= n <= windows[i].end
  {
    if windows != [] {
      var init := windows[..|windows| - 1];
      CheckpointOwns(init, n);
      CheckpointIs(windows[|windows| - 1]);
      if exists i :: 0 <= i < |init| && IsCheckpoint(init[i]) && init[i].start <= n <= init[i].end {
        var i :| 0 <= i < |init| && IsCheckpoint(init[i]) && init[i].start <= n <= init[i].end;
        assert windows[i] == init[i];
      }
      if exists i :: 0 <= i < |windows| && IsCheckpoint(windows[i]) && windows[i].start <= n <= windows[i].end {
        var i :| 0 <= i < |windows| && IsCheckpoint(windows[i]) && windows[i].start <= n <= windows[i].end;
        assert i < |init| ==> init[i] == windows[i];
      }
    }
  }

  // Completed, or of no known status, with a result that was extracted live.
  predicate IsCheckpoint(w: Checkpoint) {
    && w.hasResult && w.status in {None, Some(WindowCompleted)}
    && !(w.isFinalPartial || w.extractionSkipped || w.isRawFinal)
  }

  lemma CheckpointIs(w: Checkpoint)
    ensures OwnsItsRange(w) <==> IsCheckpoint(w)
  {
  }

  // ----- one row

  predicate IsUsable(r: Row) {
    r.text != ""
  }

  predicate SameConversation(r: Row, q: Query) {
    q.conversation == "" || r.conversation == q.conversation
  }

  predicate InRange(n: int, q: Query) {
    (q.start.Some? ==> n >= q.start.value) && (q.end.Some? ==> n <= q.end.value)
  }

  predicate SaysEmpty(exclusion: string) {
    "empty" <= exclusion || (exclusion != "" && SaysEmpty(exclusion[1..]))
  }

  // `_technical_exclusion_reason`
  function TechnicalReason(r: Row): Option<Rejection> {
    if r.stt.SttFailed? then Some(FailedStt)
    else if r.exclusion != "" && !SaysEmpty(r.exclusion) && !IsUsable(r) then Some(Damaged)
    else if !r.stt.SttCompleted? then Some(if IsUsable(r) then FailedStt else EmptyText)
    else if !IsUsable(r) then Some(EmptyText)
    else None
  }

  function Reject(r: Row, q: Query, seen: set<int>): Option<Rejection> {
    if r.sequence.None? then Some(InvalidSequence)
    else if !SameConversation(r, q) then Some(WrongConversation)
    else if !InRange(r.sequence.value, q) || r.sequence.value in q.owned then Some(OutsideRange)
    else if r.sequence.value in seen then Some(DuplicateSequence)
    else TechnicalReason(r)
  }

  // ----- sorting

  function SortKey(r: Row): int {
    if r.sequence.None? then 0 else r.sequence.value
  }

  function InsertRow(rows: seq<Row>, r: Row): seq<Row> {
    if rows == [] || SortKey(rows[|rows| - 1]) <= SortKey(r) then rows + [r]
    else InsertRow(rows[..|rows| - 1], r) + [rows[|rows| - 1]]
  }

  // Stable, by sequence number.
  function Sorted(rows: seq<Row>): seq<Row> {
    if rows == [] then [] else InsertRow(Sorted(rows[..|rows| - 1]), rows[|rows| - 1])
  }

  predicate InKeyOrder(rows: seq<Row>) {
    forall i, j :: 0 <= i < j < |rows| ==> SortKey(rows[i]) <= SortKey(rows[j])
  }

  lemma {:induction false} InsertedInOrder(rows: seq<Row>, r: Row, limit: int)
    requires InKeyOrder(rows) && SortKey(r) <= limit && forall i :: 0 <= i < |rows| ==> SortKey(rows[i]) <= limit
    ensures InKeyOrder(InsertRow(rows, r))
    ensures forall i :: 0 <= i < |InsertRow(rows, r)| ==> SortKey(InsertRow(rows, r)[i]) <= limit
  {
    if rows != [] && SortKey(rows[|rows| - 1]) > SortKey(r) {
      InsertedInOrder(rows[..|rows| - 1], r, SortKey(rows[|rows| - 1]));
    }
  }

  lemma {:induction false} InsertedOnce(rows: seq<Row>, r: Row)
    ensures multiset(InsertRow(rows, r)) == multiset(rows) + multiset{r}
  {
    if rows != [] && SortKey(rows[|rows| - 1]) > SortKey(r) {
      Whole(rows);
      InsertedOnce(rows[..|rows| - 1], r);
    }
  }

  function TopKey(rows: seq<Row>): int {
    if rows == [] then 0 else SortKey(rows[|rows| - 1])
  }

  lemma {:induction false} SortedIsSorted(rows: seq<Row>)
    ensures InKeyOrder(Sorted(rows)) && multiset(Sorted(rows)) == multiset(rows)
  {
    if rows != [] {
      var init, r := Sorted(rows[..|rows| - 1]), rows[|rows| - 1];
      SortedIsSorted(rows[..|rows| - 1]);
      Whole(rows);
      InsertedInOrder(init, r, if TopKey(init) > SortKey(r) then TopKey(init) else SortKey(r));
      InsertedOnce(init, r);
    }
  }

  lemma {:induction false} SortedFixed(rows: seq<Row>)
    requires InKeyOrder(rows)
    ensures Sorted(rows) == rows
  {
    if rows != [] {
      SortedFixed(rows[..|rows| - 1]);
      Whole(rows);
    }
  }

  // ----- the filter

  datatype Filtered = Filtered(useful: seq<Row>, seen: set<int>, rejected: seq<Rejection>)

  function Filter(f: Filtered, r: Row, q: Query): Filtered {
    match Reject(r, q, f.seen)
    case Some(reason) => f.(rejected := f.rejected + [reason])
    case None => f.(useful := f.useful + [r], seen := if r.sequence.Some? then f.seen + {r.sequence.value} else f.seen)
  }

  function FilterAll(rows: seq<Row>, q: Query): Filtered {
    if rows == [] then Filtered([], {}, []) else Filter(FilterAll(rows[..|rows| - 1], q), rows[|rows| - 1], q)
  }

  // What a row needs to be read, whatever the other rows are.
  predicate IsWanted(r: Row, q: Query) {
    && r.sequence.Some? && SameConversation(r, q) && InRange(r.sequence.value, q) && r.sequence.value !in q.owned
    && r.stt.SttCompleted? && IsUsable(r)
  }

  predicate StrictlyAscending(rows: seq<Row>) {
    && (forall i :: 0 <= i < |rows| ==> rows[i].sequence.Some?)
    && forall i, j :: 0 <= i < j < |rows| ==> rows[i].sequence.value < rows[j].sequence.value
  }

  ghost predicate Wanted(rows: seq<Row>, q: Query, n: int) {
    exists i :: 0 <= i < |rows| && IsWanted(rows[i], q) && rows[i].sequence == Some(n)
  }

  lemma WantedIsTaken(r: Row, q: Query, seen: set<int>)
    ensures Reject(r, q, seen).None? <==> IsWanted(r, q) && r.sequence.value !in seen
    ensures IsWanted(r, q) && r.sequence.value in seen ==> Reject(r, q, seen) == Some(DuplicateSequence)
  {
  }

  lemma WantedNext(rows: seq<Row>, r: Row, q: Query, n: int)
    ensures Wanted(rows + [r], q, n) <==> Wanted(rows, q, n) || (IsWanted(r, q) && r.sequence == Some(n))
  {
    if Wanted(rows, q, n) {
      var i :| 0 <= i < |rows| && IsWanted(rows[i], q) && rows[i].sequence == Some(n);
      assert (rows + [r])[i] == rows[i];
    }
    if IsWanted(r, q) && r.sequence == Some(n) {
      assert (rows + [r])[|rows|] == r;
    }
  }

  // The numbers read are exactly the wanted ones.
  lemma {:induction false} SeenAreWanted(rows: seq<Row>, q: Query, n: int)
    ensures n in FilterAll(rows, q).seen <==> Wanted(rows, q, n)
  {
    if rows != [] {
      var init, r := rows[..|rows| - 1], rows[|rows| - 1];
      SeenAreWanted(init, q, n);
      Whole(rows);
      WantedNext(init, r, q, n);
      WantedIsTaken(r, q, FilterAll(init, q).seen);
    }
  }

  function Numbers(rows: seq<Row>): set<int> {
    if rows == [] then {}
    else if rows[|rows| - 1].sequence.Some? then Numbers(rows[..|rows| - 1]) + {rows[|rows| - 1].sequence.value}
    else Numbers(rows[..|rows| - 1])
  }

  lemma {:induction false} NumberIn(rows: seq<Row>, i: nat)
    requires i < |rows| && rows[i].sequence.Some?
    ensures rows[i].sequence.value in Numbers(rows)
  {
    if i < |rows| - 1 {
      NumberIn(rows[..|rows| - 1], i);
    }
  }

  // Every row is either read or counted once as rejected ...
  lemma {:induction false} FilterCounts(rows: seq<Row>, q: Query)
    ensures var f := FilterAll(rows, q);
            && |f.useful| + |f.rejected| == |rows| && f.seen == Numbers(f.useful)
            && forall i :: 0 <= i < |f.useful| ==> IsWanted(f.useful[i], q)
  {
    if rows != [] {
      var before, r := FilterAll(rows[..|rows| - 1], q), rows[|rows| - 1];
      FilterCounts(rows[..|rows| - 1], q);
      WantedIsTaken(r, q, before.seen);
      Snoc(before.useful, r);
    }
  }

  predicate UpTo(rows: seq<Row>, limit: int) {
    forall i :: 0 <= i < |rows| ==> rows[i].sequence.Some? && rows[i].sequence.value <= limit
  }

  lemma AscendsNext(useful: seq<Row>, r: Row, limit: int)
    requires StrictlyAscending(useful) && UpTo(useful, limit) && r.sequence.Some? && limit <= r.sequence.value
    requires r.sequence.value !in Numbers(useful)
    ensures StrictlyAscending(useful + [r])
  {
    forall i | 0 <= i < |useful|
      ensures useful[i].sequence.value < r.sequence.value
    {
      NumberIn(useful, i);
    }
  }

  // ... and the rows that are read are in ascending order.
  lemma {:induction false} FilterAscends(rows: seq<Row>, q: Query)
    requires InKeyOrder(rows)
    ensures StrictlyAscending(FilterAll(rows, q).useful) && UpTo(FilterAll(rows, q).useful, TopKey(rows))
  {
    if rows != [] {
      var init, r := rows[..|rows| - 1], rows[|rows| - 1];
      var before := FilterAll(init, q);
      FilterAscends(init, q);
      FilterCounts(init, q);
      WantedIsTaken(r, q, before.seen);
      assert init != [] ==> TopKey(init) <= SortKey(r);
      if before.useful != [] && IsWanted(r, q) && r.sequence.value !in before.seen {
        AscendsNext(before.useful, r, TopKey(init));
      }
    }
  }

  // ----- the whole assembly

  datatype Assembly = Assembly(useful: seq<Row>, rejected: multiset<Rejection>, failed: bool)

  // A row that would be read if its number were in order; a number that does
  // not convert counts as -1 here.
  predicate IsEligible(r: Row, q: Query) {
    var n := if r.sequence.None? then -1 else r.sequence.value;
    SameConversation(r, q) && IsUsable(r) && r.stt.SttCompleted? && n !in q.owned && InRange(n, q)
  }

  predicate AnyEligible(rows: seq<Row>, q: Query) {
    rows != [] && (IsEligible(rows[|rows| - 1], q) || AnyEligible(rows[..|rows| - 1], q))
  }

  function Assemble(rows: seq<Row>, q: Query): Assembly {
    var f := FilterAll(Sorted(rows), q);
    Assembly(f.useful, multiset(f.rejected), AnyEligible(Sorted(rows), q) && f.useful == [])
  }

  method AssembleUseful(rows: seq<Row>, q: Query) returns (result: Assembly)
    ensures result == Assemble(rows, q)
  {
    var ordered := Sorted(rows);
    var seen: set<int>, useful: seq<Row>, rejected: multiset<Rejection> := {}, [], multiset{};
    ghost var filtered := Filtered([], {}, []);
    SortedIsSorted(rows);
    for i := 0 to |ordered|
      invariant filtered == FilterAll(ordered[..i], q)
      invariant useful == filtered.useful && seen == filtered.seen && rejected == multiset(filtered.rejected)
    {
      TakeSnoc(ordered, i);
      var r := ordered[i];
      filtered := Filter(filtered, r, q);
      if r.sequence.None? {
        rejected := rejected + multiset{InvalidSequence};
        continue;
      }
      if q.conversation != "" && r.conversation != q.conversation {
        rejected := rejected + multiset{WrongConversation};
        continue;
      }
      var sequence := r.sequence.value;
      if !InRange(sequence, q) || sequence in q.owned {
        rejected := rejected + multiset{OutsideRange};
        continue;
      }
      if sequence in seen {
        rejected := rejected + multiset{DuplicateSequence};
        continue;
      }
      var reason := TechnicalReason(r);
      if reason.Some? {
        rejected := rejected + multiset{reason.value};
        continue;
      }
      seen := seen + {sequence};
      useful := useful + [r];
    }
    TakeAll(ordered);
    FilterAscends(ordered, q);
    UsefulInOrder(useful);
    SortedFixed(useful);
    useful := Sorted(useful);
    result := Assembly(useful, rejected, AnyEligible(ordered, q) && useful == []);
  }

  lemma UsefulInOrder(rows: seq<Row>)
    requires StrictlyAscending(rows)
    ensures InKeyOrder(rows)
  {
  }

  lemma SortedWanted(rows: seq<Row>, q: Query, n: int)
    ensures Wanted(Sorted(rows), q, n) <==> Wanted(rows, q, n)
  {
    SortedIsSorted(rows);
    if Wanted(rows, q, n) {
      var i :| 0 <= i < |rows| && IsWanted(rows[i], q) && rows[i].sequence == Some(n);
      assert rows[i] in multiset(rows);
      assert rows[i] in Sorted(rows);
    }
    if Wanted(Sorted(rows), q, n) {
      var i :| 0 <= i < |Sorted(rows)| && IsWanted(Sorted(rows)[i], q) && Sorted(rows)[i].sequence == Some(n);
      assert Sorted(rows)[i] in multiset(Sorted(rows));
      assert Sorted(rows)[i] in rows;
    }
  }

  // The useful rows are the wanted numbers, each once and ascending, whatever the
  // order in which the rows are read; every other row is counted as rejected.
  lemma AssemblyIsTheWantedSet(rows: seq<Row>, q: Query)
    ensures var a := Assemble(rows, q);
            && StrictlyAscending(a.useful)
            && (forall n :: n in Numbers(a.useful) <==> Wanted(rows, q, n))
            && (forall i :: 0 <= i < |a.useful| ==> IsWanted(a.useful[i], q))
            && |a.useful| + |a.rejected| == |rows|
  {
    var ordered := Sorted(rows);
    SortedIsSorted(rows);
    FilterAscends(ordered, q);
    FilterCounts(ordered, q);
    forall n: int
      ensures n in FilterAll(ordered, q).seen <==> Wanted(rows, q, n)
    {
      SeenAreWanted(ordered, q, n);
      SortedWanted(rows, q, n);
    }
    assert |multiset(ordered)| == |ordered| && |multiset(rows)| == |rows|;
  }

  lemma {:induction false} EligibleIs(rows: seq<Row>, q: Query)
    ensures AnyEligible(rows, q) <==> exists i :: 0 <= i < |rows| && IsEligible(rows[i], q)
  {
    if rows != [] {
      EligibleIs(rows[..|rows| - 1], q);
    }
  }

  // The failure flag needs a row whose number does not convert: with integer
  // numbers it is never set.
  lemma FailsOnlyOnBadNumbers(rows: seq<Row>, q: Query)
    ensures Assemble(rows, q).failed <==>
            (forall n :: !Wanted(rows, q, n)) && exists i :: 0 <= i < |rows| && rows[i].sequence.None? && IsEligible(rows[i], q)
  {
    var ordered := Sorted(rows);
    SortedIsSorted(rows);
    AssemblyIsTheWantedSet(rows, q);
    EligibleIs(ordered, q);
    SameRows(ordered, rows, q);
    NothingWanted(rows, q);
  }

  lemma SameRows(ordered: seq<Row>, rows: seq<Row>, q: Query)
    requires multiset(ordered) == multiset(rows)
    ensures (exists i :: 0 <= i < |ordered| && IsEligible(ordered[i], q)) <==>
            (exists i :: 0 <= i < |rows| && IsEligible(rows[i], q))
  {
    forall i | 0 <= i < |ordered|
      ensures ordered[i] in rows
    {
      assert ordered[i] in multiset(ordered);
    }
    forall i | 0 <= i < |rows|
      ensures rows[i] in ordered
    {
      assert rows[i] in multiset(rows);
    }
  }

  // An eligible row with a number is wanted.
  lemma NothingWanted(rows: seq<Row>, q: Query)
    ensures Assemble(rows, q).useful == [] <==> forall n :: !Wanted(rows, q, n)
    ensures forall i :: 0 <= i < |rows| && IsEligible(rows[i], q) && rows[i].sequence.Some? ==>
                          Wanted(rows, q, rows[i].sequence.value)
  {
    var useful := Assemble(rows, q).useful;
    AssemblyIsTheWantedSet(rows, q);
    if useful != [] {
      NumberIn(useful, 0);
    }
    forall i | 0 <= i < |rows| && IsEligible(rows[i], q) && rows[i].sequence.Some?
      ensures Wanted(rows, q, rows[i].sequence.value)
    {
      assert IsWanted(rows[i], q);
    }
  }

  // ----- the reasons, said of the fields

  predicate AsksFor(r: Row, q: Query, n: int) {
    && (q.start == None || q.start.value <= n) && (q.end == None || n <= q.end.value) && n !in q.owned
  }

  // The stored reason mentions "empty".
  predicate MentionsEmpty(exclusion: string) {
    Contains(exclusion, "empty")
  }

  lemma {:induction false} SaysEmptyMeans(exclusion: string)
    ensures SaysEmpty(exclusion) <==> MentionsEmpty(exclusion)
  {
    if exclusion != "" {
      var rest := exclusion[1..];
      SaysEmptyMeans(rest);
      if Contains(rest, "empty") {
        var i :| 0 <= i <= |rest| - 5 && OccursAt(rest, "empty", i);
        assert exclusion[i + 1..i + 6] == rest[i..i + 5];
        assert OccursAt(exclusion, "empty", i + 1);
      }
      if Contains(exclusion, "empty") {
        var i :| 0 <= i <= |exclusion| - 5 && OccursAt(exclusion, "empty", i);
        if i > 0 {
          assert exclusion[i..i + 5] == rest[i - 1..i + 4];
          assert OccursAt(rest, "empty", i - 1);
        }
      }
      if "empty" <= exclusion {
        assert OccursAt(exclusion, "empty", 0);
      }
    }
  }

  // A row that may be read: of the conversation, asked for, completed, not blank.
  predicate MayBeRead(r: Row, q: Query) {
    && r.sequence.Some? && (q.conversation == "" || r.conversation == q.conversation) && AsksFor(r, q, r.sequence.value)
    && r.stt == SttCompleted && r.text != ""
  }

  ghost predicate ReadBefore(earlier: seq<Row>, q: Query, n: int) {
    exists i :: 0 <= i < |earlier| && MayBeRead(earlier[i], q) && earlier[i].sequence == Some(n)
  }

  // Why a row is not read, when `earlier` are the rows before it.
  ghost function Why(r: Row, q: Query, earlier: seq<Row>): Option<Rejection> {
    if r.sequence == None then Some(InvalidSequence)
    else if q.conversation != "" && r.conversation != q.conversation then Some(WrongConversation)
    else if !AsksFor(r, q, r.sequence.value) then Some(OutsideRange)
    else if ReadBefore(earlier, q, r.sequence.value) then Some(DuplicateSequence)
    else if r.text != "" then if r.stt == SttCompleted then None else Some(FailedStt)
    else if r.stt == SttFailed then Some(FailedStt)
    else if r.exclusion != "" && !MentionsEmpty(r.exclusion) then Some(Damaged)
    else Some(EmptyText)
  }

  ghost function Whys(rows: seq<Row>, q: Query): seq<Rejection> {
    if rows == [] then []
    else
      var n := |rows| - 1;
      Whys(rows[..n], q) + match Why(rows[n], q, rows[..n]) case Some(reason) => [reason] case None => []
  }

  lemma ReadIsWanted(rows: seq<Row>, q: Query, n: int)
    ensures ReadBefore(rows, q, n) <==> Wanted(rows, q, n)
  {
    assert forall i :: 0 <= i < |rows| ==> (MayBeRead(rows[i], q) <==> IsWanted(rows[i], q));
  }

  lemma WhyRejected(rows: seq<Row>, q: Query, r: Row)
    ensures Reject(r, q, FilterAll(rows, q).seen) == Why(r, q, rows)
  {
    SaysEmptyMeans(r.exclusion);
    if r.sequence.Some? {
      SeenAreWanted(rows, q, r.sequence.value);
      ReadIsWanted(rows, q, r.sequence.value);
    }
  }

  // Every row that is not read is counted under its reason.
  lemma {:induction false} RejectedForReasons(rows: seq<Row>, q: Query)
    ensures FilterAll(rows, q).rejected == Whys(rows, q)
  {
    if rows != [] {
      RejectedForReasons(rows[..|rows| - 1], q);
      WhyRejected(rows[..|rows| - 1], q, rows[|rows| - 1]);
      EmptyRight(Whys(rows[..|rows| - 1], q));
    }
  }

  // The counts of the assembly, and which numbers it reads.
  lemma AssemblyCounts(rows: seq<Row>, q: Query, n: int)
    ensures Assemble(rows, q).rejected == multiset(Whys(Sorted(rows), q))
    ensures n in Numbers(Assemble(rows, q).useful) <==> ReadBefore(rows, q, n)
  {
    RejectedForReasons(Sorted(rows), q);
    AssemblyIsTheWantedSet(rows, q);
    ReadIsWanted(rows, q, n);
  }
}

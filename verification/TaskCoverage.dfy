// Adding the action threads that the extracted units leave out
// (services/conversation/task_coverage.py).

module TaskCoverage {
  import opened Seqs
  import opened Text
  import opened Models
  import opened Transcript
  import opened Artifacts
  import opened Incremental
  import opened Evidence
  import opened Threads
  import opened ThreadContents

  const ActionRoles := {RAction, RCommitment, RRequest, RInstruction, RFollowUp, RAssignment}

  predicate HasAction(roles: set<Role>) {
    roles * ActionRoles != {}
  }

  // `_evidence_sequences`
  function SpanNumbers(spans: seq<Span>): set<int> {
    if spans == [] then {}
    else SpanNumbers(spans[..|spans| - 1]) + Range(spans[|spans| - 1].sequenceStart, spans[|spans| - 1].sequenceEnd + 1)
  }

  // `_unit_sequences`
  function UnitNumbers(u: Unit): set<int> {
    IdSet(u.evidenceIds) + SpanNumbers(u.evidence)
  }

  function Covered(units: seq<Unit>): set<int> {
    if units == [] then {} else Covered(units[..|units| - 1]) + UnitNumbers(units[|units| - 1])
  }

  // ----- the unit a thread gives

  function ActionKind(roles: set<Role>): string {
    if RRequest in roles then "request"
    else if RAssignment in roles then "assignment"
    else if RAction in roles then "action"
    else if RInstruction in roles then "instruction"
    else if RFollowUp in roles then "follow_up"
    else if RCommitment in roles then "commitment"
    else "request"
  }

  // The meaning of the first action turn that has one.
  function ActionMeaning(turns: seq<Turn>): string {
    if turns == [] then ""
    else if HasAction(turns[0].roles) && Strip(turns[0].meaning) != "" then Strip(turns[0].meaning)
    else ActionMeaning(turns[1..])
  }

  function MeaningOf(thread: Thread): string {
    Or(ActionMeaning(thread.turns), Strip(thread.topic))
  }

  // The first turn of every number.
  function ThreadEvidence(turns: seq<Turn>): seq<Span> {
    if turns == [] then []
    else
      var init, t := turns[..|turns| - 1], turns[|turns| - 1];
      if t.sequence in Threads.Sequences(init) then ThreadEvidence(init)
      else ThreadEvidence(init) + [Span(t.sequence, t.sequence, Strip(t.text))]
  }

  function UnitOf(thread: Thread): Unit
    requires Threads.Sequences(thread.turns) != {}
  {
    var numbers := Threads.Sequences(thread.turns);
    Unit(Or(thread.threadKey, "thread-" + IntText(Least(numbers))), ActionKind(thread.roles), MeaningOf(thread), "unresolved",
         "", "", ThreadEvidence(thread.turns), InOrder(numbers), Quality(None, []))
  }

  // An action thread with something to say.
  predicate Speaks(thread: Thread) {
    HasAction(thread.roles) && Threads.Sequences(thread.turns) != {} && MeaningOf(thread) != ""
  }

  // ----- the threads left out

  datatype Search = Search(covered: set<int>, extras: seq<Unit>)

  function Look(s: Search, thread: Thread): Search {
    var numbers := Threads.Sequences(thread.turns);
    if Speaks(thread) && !(numbers <= s.covered) then Search(s.covered + numbers, s.extras + [UnitOf(thread)]) else s
  }

  function LookAll(units: seq<Unit>, threads: seq<Thread>): Search {
    if threads == [] then Search(Covered(units), [])
    else Look(LookAll(units, threads[..|threads| - 1]), threads[|threads| - 1])
  }

  function Merged(m: Matcher, units: seq<Unit>, threads: seq<Thread>, lines: map<int, string>): seq<Unit> {
    var extras := LookAll(units, threads).extras;
    if extras == [] then units else units + Kept(m, extras, lines)
  }

  method MergeUncoveredActionUnits(m: Matcher, units: seq<Unit>, threads: seq<Thread>, transcript: string)
    returns (result: seq<Unit>)
    ensures result == Merged(m, units, threads, SequenceMap(transcript))
  {
    var covered: set<int> := {};
    for i := 0 to |units|
      invariant covered == Covered(units[..i])
    {
      TakeSnoc(units, i);
      covered := covered + UnitNumbers(units[i]);
    }
    TakeAll(units);
    var extras: seq<Unit> := [];
    for i := 0 to |threads|
      invariant Search(covered, extras) == LookAll(units, threads[..i])
    {
      TakeSnoc(threads, i);
      var thread := threads[i];
      if !HasAction(thread.roles) {
        continue;
      }
      var numbers := Threads.Sequences(thread.turns);
      if numbers == {} || numbers <= covered {
        continue;
      }
      if MeaningOf(thread) == "" {
        continue;
      }
      extras := extras + [UnitOf(thread)];
      covered := covered + numbers;
    }
    TakeAll(threads);
    if extras == [] {
      return units;
    }
    var kept, _ := HydrateAndValidate(m, extras, transcript);
    result := units + kept;
  }

  // ----- every action thread is covered

  lemma {:induction false} CoveredConcat(a: seq<Unit>, b: seq<Unit>)
    ensures Covered(a + b) == Covered(a) + Covered(b)
  {
    if b == [] {
      EmptyRight(a);
    } else {
      CoveredConcat(a, b[..|b| - 1]);
      InitOfConcat(a, b);
    }
  }

  // A line that a turn may come from: known and not blank.
  predicate IsSpoken(n: int, lines: map<int, string>) {
    n in lines && Strip(lines[n]) != ""
  }

  ghost predicate AllSpoken(threads: seq<Thread>, lines: map<int, string>) {
    forall i, n :: 0 <= i < |threads| && n in Threads.Sequences(threads[i].turns) ==> IsSpoken(n, lines)
  }

  // The unit of a thread is grounded, and keeps all its numbers.
  lemma ThreadIsGrounded(m: Matcher, thread: Thread, lines: map<int, string>)
    requires Speaks(thread) && Strip(MeaningOf(thread)) != ""
    requires forall n :: n in Threads.Sequences(thread.turns) ==> IsSpoken(n, lines)
    ensures IsGrounded(m, UnitOf(thread), lines)
    ensures Threads.Sequences(thread.turns) <= UnitNumbers(Hydrated(m, UnitOf(thread), lines))
  {
    var unit, numbers := UnitOf(thread), Threads.Sequences(thread.turns);
    IdsOfOrder(numbers);
    assert numbers <= CitedSet(m, unit, lines);
    CitesSpoken(m, unit, Least(numbers), lines);
    IdsOfOrder(CitedSet(m, unit, lines));
  }

  lemma CitesSpoken(m: Matcher, unit: Unit, n: int, lines: map<int, string>)
    requires n in CitedSet(m, unit, lines) && IsSpoken(n, lines) && Strip(unit.meaning) != ""
    ensures IsGrounded(m, unit, lines) && Hydrated(m, unit, lines).evidenceIds == CitedIds(m, unit, lines)
  {
    InOrderAscends(CitedSet(m, unit, lines));
    QuotedLines(CitedIds(m, unit, lines), lines);
  }

  lemma {:induction false} ActionMeaningIsBare(turns: seq<Turn>)
    ensures ActionMeaning(turns) == "" || Bare(ActionMeaning(turns))
  {
    if turns != [] {
      StripIsBare(turns[0].meaning);
      ActionMeaningIsBare(turns[1..]);
    }
  }

  lemma MeaningIsBare(thread: Thread)
    requires MeaningOf(thread) != ""
    ensures Strip(MeaningOf(thread)) == MeaningOf(thread)
  {
    ActionMeaningIsBare(thread.turns);
    StripIsBare(thread.topic);
    StripFixed(MeaningOf(thread));
  }

  // What is found so far is covered by the given units and the kept extras.
  ghost predicate LookedWell(m: Matcher, units: seq<Unit>, s: Search, lines: map<int, string>) {
    s.covered <= Covered(units) + Covered(Kept(m, s.extras, lines)) && Covered(units) <= s.covered
  }

  lemma LookStep(m: Matcher, units: seq<Unit>, s: Search, thread: Thread, lines: map<int, string>)
    requires LookedWell(m, units, s, lines)
    requires forall n :: n in Threads.Sequences(thread.turns) ==> IsSpoken(n, lines)
    ensures LookedWell(m, units, Look(s, thread), lines)
    ensures s.covered <= Look(s, thread).covered
    ensures Speaks(thread) ==> Threads.Sequences(thread.turns) <= Look(s, thread).covered
  {
    if Speaks(thread) && !(Threads.Sequences(thread.turns) <= s.covered) {
      MeaningIsBare(thread);
      ThreadIsGrounded(m, thread, lines);
      Snoc(s.extras, UnitOf(thread));
      Snoc(Kept(m, s.extras, lines), Hydrated(m, UnitOf(thread), lines));
    }
  }

  lemma SpokenInit(threads: seq<Thread>, lines: map<int, string>)
    requires threads != [] && AllSpoken(threads, lines)
    ensures AllSpoken(threads[..|threads| - 1], lines)
    ensures forall n :: n in Threads.Sequences(threads[|threads| - 1].turns) ==> IsSpoken(n, lines)
  {
    var init := threads[..|threads| - 1];
    forall i, n | 0 <= i < |init| && n in Threads.Sequences(init[i].turns)
      ensures IsSpoken(n, lines)
    {
      assert n in Threads.Sequences(threads[i].turns);
    }
  }

  lemma {:induction false} LookAllWell(m: Matcher, units: seq<Unit>, threads: seq<Thread>, lines: map<int, string>, i: nat)
    requires AllSpoken(threads, lines)
    ensures LookedWell(m, units, LookAll(units, threads), lines)
    ensures i < |threads| && Speaks(threads[i]) ==> Threads.Sequences(threads[i].turns) <= LookAll(units, threads).covered
  {
    if threads == [] {
      assert Kept(m, [], lines) == [];
    } else {
      SpokenInit(threads, lines);
      LookAllWell(m, units, threads[..|threads| - 1], lines, i);
      LookStep(m, units, LookAll(units, threads[..|threads| - 1]), threads[|threads| - 1], lines);
    }
  }

  // After the merge every action thread that says something is cited, line by line.
  lemma ActionThreadsAreCovered(m: Matcher, units: seq<Unit>, threads: seq<Thread>, lines: map<int, string>, i: nat)
    requires AllSpoken(threads, lines) && i < |threads| && Speaks(threads[i])
    ensures Threads.Sequences(threads[i].turns) <= Covered(Merged(m, units, threads, lines))
  {
    LookAllWell(m, units, threads, lines, i);
    CoveredConcat(units, Kept(m, LookAll(units, threads).extras, lines));
  }

  lemma {:induction false} NothingLeftOut(units: seq<Unit>, threads: seq<Thread>)
    requires forall i :: 0 <= i < |threads| && Speaks(threads[i]) ==> Threads.Sequences(threads[i].turns) <= Covered(units)
    ensures LookAll(units, threads) == Search(Covered(units), [])
  {
    if threads != [] {
      NothingLeftOut(units, threads[..|threads| - 1]);
    }
  }

  // A second merge adds nothing.
  lemma SecondMerge(m: Matcher, units: seq<Unit>, threads: seq<Thread>, lines: map<int, string>)
    requires AllSpoken(threads, lines)
    ensures var once := Merged(m, units, threads, lines); Merged(m, once, threads, lines) == once
  {
    var once := Merged(m, units, threads, lines);
    forall i | 0 <= i < |threads| && Speaks(threads[i])
      ensures Threads.Sequences(threads[i].turns) <= Covered(once)
    {
      ActionThreadsAreCovered(m, units, threads, lines, i);
    }
    NothingLeftOut(once, threads);
  }

  // ----- threads of a printed transcript

  lemma {:induction false} SequencesSpoken(turns: seq<Turn>, transcript: map<int, string>, n: int)
    requires AllFrom(turns, transcript) && n in Threads.Sequences(turns)
    ensures n in transcript
  {
    if turns[|turns| - 1].sequence != n {
      SequencesSpoken(turns[..|turns| - 1], transcript, n);
    }
  }

  lemma PrintedIsSpoken(lower: char -> char, chunks: seq<Speech>, n: int)
    requires n in ParsedSequences(WindowText(lower, chunks))
    ensures IsSpoken(n, SequenceMap(WindowText(lower, chunks)))
  {
    PrintThenParse(lower, chunks);
    ParsedTextQuotes(lower, chunks, n);
    var text := ParsedSequences(WindowText(lower, chunks))[n];
    StripFixed(text);
  }

  lemma PrintedThreadsAreSpoken(normalize: string -> string, lower: char -> char, chunks: seq<Speech>, labels: seq<Labelled>)
    ensures var text := WindowText(lower, chunks);
            AllSpoken(Reconstructed(normalize, ParsedSequences(text), labels), SequenceMap(text))
  {
    var text := WindowText(lower, chunks);
    var threads, lines := Reconstructed(normalize, ParsedSequences(text), labels), SequenceMap(text);
    ReconstructedFrom(normalize, ParsedSequences(text), labels);
    forall i, n | 0 <= i < |threads| && n in Threads.Sequences(threads[i].turns)
      ensures IsSpoken(n, lines)
    {
      SequencesSpoken(threads[i].turns, ParsedSequences(text), n);
      PrintedIsSpoken(lower, chunks, n);
    }
  }

  // Whatever labels the model gives to a printed transcript, and whatever units
  // it returns, every action thread ends up covered and a second call adds nothing.
  lemma PrintedThreadsAreCovered(m: Matcher, normalize: string -> string, lower: char -> char, chunks: seq<Speech>,
                                 labels: seq<Labelled>, units: seq<Unit>)
    ensures var text := WindowText(lower, chunks);
            var threads, lines := Reconstructed(normalize, ParsedSequences(text), labels), SequenceMap(text);
            var once := Merged(m, units, threads, lines);
            && (forall i :: 0 <= i < |threads| && Speaks(threads[i]) ==> Threads.Sequences(threads[i].turns) <= Covered(once))
            && Merged(m, once, threads, lines) == once
  {
    var text := WindowText(lower, chunks);
    var threads, lines := Reconstructed(normalize, ParsedSequences(text), labels), SequenceMap(text);
    PrintedThreadsAreSpoken(normalize, lower, chunks, labels);
    forall i | 0 <= i < |threads| && Speaks(threads[i])
      ensures Threads.Sequences(threads[i].turns) <= Covered(Merged(m, units, threads, lines))
    {
      ActionThreadsAreCovered(m, units, threads, lines, i);
    }
    SecondMerge(m, units, threads, lines);
  }

  // ----- exactly what is covered

  predicate SpeaksOf(thread: Thread, n: int) {
    Speaks(thread) && n in Threads.Sequences(thread.turns)
  }

  predicate InSpeaking(threads: seq<Thread>, n: int) {
    threads != [] && (SpeaksOf(threads[|threads| - 1], n) || InSpeaking(threads[..|threads| - 1], n))
  }

  lemma {:induction false} ThreadSpeaks(threads: seq<Thread>, i: nat, n: int)
    requires i < |threads| && SpeaksOf(threads[i], n)
    ensures InSpeaking(threads, n)
  {
    if i < |threads| - 1 {
      ThreadSpeaks(threads[..|threads| - 1], i, n);
    }
  }

  lemma {:induction false} SomeThreadSpeaks(threads: seq<Thread>, n: int) returns (i: nat)
    requires InSpeaking(threads, n)
    ensures i < |threads| && SpeaksOf(threads[i], n)
  {
    i := |threads| - 1;
    if !SpeaksOf(threads[i], n) {
      i := SomeThreadSpeaks(threads[..i], n);
    }
  }

  // A thread's evidence names only its numbers.
  lemma {:induction false} EvidenceNumbers(turns: seq<Turn>, n: int)
    requires n in SpanNumbers(ThreadEvidence(turns))
    ensures n in Threads.Sequences(turns)
  {
    var init, t := turns[..|turns| - 1], turns[|turns| - 1];
    if t.sequence !in Threads.Sequences(init) {
      Snoc(ThreadEvidence(init), Span(t.sequence, t.sequence, Strip(t.text)));
    }
    if t.sequence in Threads.Sequences(init) || n != t.sequence {
      EvidenceNumbers(init, n);
    }
  }

  lemma {:induction false} ThreadSpansName(m: Matcher, turns: seq<Turn>, lines: map<int, string>, n: int)
    requires forall k :: k in Threads.Sequences(turns) ==> k in lines
    ensures n in AllSpanIds(m, ThreadEvidence(turns), lines) ==> n in Threads.Sequences(turns)
  {
    if turns != [] {
      var init, t := turns[..|turns| - 1], turns[|turns| - 1];
      ThreadSpansName(m, init, lines, n);
      if t.sequence !in Threads.Sequences(init) {
        var span := Span(t.sequence, t.sequence, Strip(t.text));
        Snoc(ThreadEvidence(init), span);
        QuoteCitesItsLine(m, span, lines);
      }
    }
  }

  lemma {:induction false} QuotedNumbers(ids: seq<int>, lines: map<int, string>, n: int)
    requires forall i :: 0 <= i < |ids| ==> ids[i] in lines
    ensures n in SpanNumbers(Quoted(ids, lines)) ==> n in ids
  {
    if ids != [] {
      QuotedNumbers(ids[..|ids| - 1], lines, n);
      Snoc(Quoted(ids[..|ids| - 1], lines), Span(ids[|ids| - 1], ids[|ids| - 1], Strip(lines[ids[|ids| - 1]])));
      Whole(ids);
    }
  }

  lemma ThreadUnitCitedSet(m: Matcher, thread: Thread, lines: map<int, string>)
    requires Speaks(thread) && forall k :: k in Threads.Sequences(thread.turns) ==> k in lines
    ensures CitedSet(m, UnitOf(thread), lines) == Threads.Sequences(thread.turns)
  {
    var numbers := Threads.Sequences(thread.turns);
    IdsOfOrder(numbers);
    forall k: int
      ensures k in AllSpanIds(m, ThreadEvidence(thread.turns), lines) ==> k in numbers
    {
      ThreadSpansName(m, thread.turns, lines, k);
    }
    assert Known(numbers, lines) == numbers;
    CitesExactly(m, UnitOf(thread), numbers, lines);
  }

  // The unit of a thread ends up citing the thread's numbers and no others.
  lemma ThreadUnitCites(m: Matcher, thread: Thread, lines: map<int, string>, n: int)
    requires Speaks(thread) && forall k :: k in Threads.Sequences(thread.turns) ==> IsSpoken(k, lines)
    ensures n in UnitNumbers(Hydrated(m, UnitOf(thread), lines)) <==> n in Threads.Sequences(thread.turns)
  {
    var unit, numbers := UnitOf(thread), Threads.Sequences(thread.turns);
    MeaningIsBare(thread);
    ThreadIsGrounded(m, thread, lines);
    GroundedNames(m, unit, lines);
    ThreadUnitCitedSet(m, thread, lines);
    IdsOfOrder(numbers);
    InOrderAscends(numbers);
    QuotedNumbers(CitedIds(m, unit, lines), lines, n);
  }

  // What the added units cite lies in a speaking thread.
  lemma {:induction false} ExtrasCite(m: Matcher, units: seq<Unit>, threads: seq<Thread>, lines: map<int, string>, n: int)
    requires AllSpoken(threads, lines) && n in Covered(Kept(m, LookAll(units, threads).extras, lines))
    ensures InSpeaking(threads, n)
  {
    if threads != [] {
      var init, thread := threads[..|threads| - 1], threads[|threads| - 1];
      var s := LookAll(units, init);
      SpokenInit(threads, lines);
      if Look(s, thread) != s {
        MeaningIsBare(thread);
        ThreadIsGrounded(m, thread, lines);
        ThreadUnitCites(m, thread, lines, n);
        Snoc(s.extras, UnitOf(thread));
        Snoc(Kept(m, s.extras, lines), Hydrated(m, UnitOf(thread), lines));
      }
      if n in Covered(Kept(m, s.extras, lines)) {
        ExtrasCite(m, units, init, lines, n);
      }
    }
  }

  // A number is cited after the merge exactly when it was before, or a speaking
  // thread has it.
  lemma CoveredExactly(m: Matcher, units: seq<Unit>, threads: seq<Thread>, lines: map<int, string>, n: int)
    requires AllSpoken(threads, lines)
    ensures n in Covered(Merged(m, units, threads, lines)) <==> n in Covered(units) || InSpeaking(threads, n)
  {
    var kept := Kept(m, LookAll(units, threads).extras, lines);
    CoveredConcat(units, kept);
    EmptyRight(units);
    assert Kept(m, [], lines) == [];
    if n in Covered(kept) {
      ExtrasCite(m, units, threads, lines, n);
    }
    if InSpeaking(threads, n) {
      var i := SomeThreadSpeaks(threads, n);
      ActionThreadsAreCovered(m, units, threads, lines, i);
    }
  }

  // ----- said of the labels

  // A thread of these turns has something to say: a topic, or an action turn
  // that is the first of its number.
  ghost predicate Heard(turns: seq<Turn>) {
    FirstTopic(turns) != "" || exists i: nat :: IsFirstAction(turns, i)
  }

  predicate IsFirstAction(turns: seq<Turn>, i: nat) {
    IsFirstAt(turns, i) && HasAction(turns[i].roles)
  }

  // What the collapsed texts of a turn are like.
  predicate IsClean(t: Turn) {
    Strip(t.meaning) != "" && (t.topic == "" || Strip(t.topic) != "")
  }

  lemma CollapsedIsClean(text: string)
    requires Collapse(text) != ""
    ensures Strip(Collapse(text)) != ""
  {
    StripIsBare(Squeeze(text, false));
    StripFixed(Collapse(text));
  }

  lemma GivenIsClean(transcript: map<int, string>, labels: seq<Labelled>, t: Turn)
    requires IsGiven(transcript, labels, t)
    ensures IsClean(t)
  {
    var k := SomeLabelGives(transcript, labels, t);
    CollapsedIsClean(labels[k].meaning);
    if Collapse(labels[k].topic) != "" {
      CollapsedIsClean(labels[k].topic);
    }
  }

  lemma {:induction false} ActionMeaningIs(turns: seq<Turn>)
    requires forall t :: t in turns ==> IsClean(t)
    ensures ActionMeaning(turns) != "" <==> exists t :: t in turns && HasAction(t.roles)
  {
    if turns != [] {
      assert turns[0] in turns;
      ActionMeaningIs(turns[1..]);
      assert forall t :: t in turns <==> t == turns[0] || t in turns[1..];
    }
  }

  lemma {:induction false} TopicIsClean(turns: seq<Turn>)
    requires forall t :: t in turns ==> IsClean(t)
    ensures FirstTopic(turns) == "" <==> Strip(FirstTopic(turns)) == ""
  {
    if turns != [] {
      assert turns[|turns| - 1] in turns;
      TopicIsClean(turns[..|turns| - 1]);
    }
  }

  lemma FirstActions(turns: seq<Turn>)
    ensures (exists t :: t in FirstTurns(turns) && HasAction(t.roles)) <==> exists i: nat :: IsFirstAction(turns, i)
  {
    if exists t :: t in FirstTurns(turns) && HasAction(t.roles) {
      var t :| t in FirstTurns(turns) && HasAction(t.roles);
      var i := FirstTurnIsFirst(turns, t);
      assert IsFirstAction(turns, i);
    }
    if exists i: nat :: IsFirstAction(turns, i) {
      var i: nat :| IsFirstAction(turns, i);
      FirstIsFirstTurn(turns, i);
    }
  }

  lemma FirstTurnsWithin(turns: seq<Turn>, t: Turn)
    requires t in FirstTurns(turns)
    ensures t in turns
  {
    var i := FirstTurnIsFirst(turns, t);
  }

  lemma SpeaksExactly(turns: seq<Turn>)
    requires turns != [] && forall t :: t in turns ==> IsClean(t)
    ensures Speaks(ThreadOf(turns)) <==> HasAction(AllRoles(turns)) && Heard(turns)
    ensures Threads.Sequences(ThreadOf(turns).turns) == Threads.Sequences(turns)
  {
    FirstNumbers(turns);
    SequencesHave(turns, turns[0].sequence);
    forall t | t in FirstTurns(turns)
      ensures IsClean(t)
    {
      FirstTurnsWithin(turns, t);
    }
    ActionMeaningIs(FirstTurns(turns));
    TopicIsClean(turns);
    FirstActions(turns);
  }

  // The turns of a key make an action thread that says something, on line `n`.
  ghost predicate ActsOn(turns: seq<Turn>, n: int) {
    n in Threads.Sequences(turns) && HasAction(AllRoles(turns)) && Heard(turns)
  }

  lemma KeyTurnsAreClean(normalize: string -> string, transcript: map<int, string>, labels: seq<Labelled>, key: string)
    ensures forall t :: t in OfKey(normalize, TurnsFrom(transcript, labels), key) ==> IsClean(t)
  {
    TurnsAreGiven(transcript, labels);
    forall t | t in OfKey(normalize, TurnsFrom(transcript, labels), key)
      ensures IsClean(t)
    {
      OfKeyHas(normalize, TurnsFrom(transcript, labels), key, t);
      GivenIsClean(transcript, labels, t);
    }
  }

  lemma SpeakingIsActing(normalize: string -> string, transcript: map<int, string>, labels: seq<Labelled>, n: int)
    ensures InSpeaking(Reconstructed(normalize, transcript, labels), n) <==>
            exists key :: ActsOn(OfKey(normalize, TurnsFrom(transcript, labels), key), n)
  {
    var threads, turns := Reconstructed(normalize, transcript, labels), TurnsFrom(transcript, labels);
    if InSpeaking(threads, n) {
      var i := SomeThreadSpeaks(threads, n);
      assert threads[i] in threads;
      ThreadsAre(normalize, transcript, labels, threads[i]);
      var key :| OfKey(normalize, turns, key) != [] && threads[i] == ThreadOf(OfKey(normalize, turns, key));
      KeyTurnsAreClean(normalize, transcript, labels, key);
      SpeaksExactly(OfKey(normalize, turns, key));
      assert ActsOn(OfKey(normalize, turns, key), n);
    }
    if exists key :: ActsOn(OfKey(normalize, turns, key), n) {
      var key :| ActsOn(OfKey(normalize, turns, key), n);
      KeyTurnsAreClean(normalize, transcript, labels, key);
      KeyIsListed(normalize, transcript, labels, key);
      SpeaksExactly(OfKey(normalize, turns, key));
      var i :| 0 <= i < |threads| && threads[i] == ThreadOf(OfKey(normalize, turns, key));
      ThreadSpeaks(threads, i, n);
    }
  }

  // A line is cited after the merge exactly when it was before, or when the
  // labels of some key act on it and say something.
  lemma LabelsAreCovered(m: Matcher, normalize: string -> string, lower: char -> char, chunks: seq<Speech>,
                         labels: seq<Labelled>, units: seq<Unit>, n: int)
    ensures var text := WindowText(lower, chunks);
            var transcript := ParsedSequences(text);
            n in Covered(Merged(m, units, Reconstructed(normalize, transcript, labels), SequenceMap(text))) <==>
                 n in Covered(units) || exists key :: ActsOn(OfKey(normalize, TurnsFrom(transcript, labels), key), n)
  {
    var text := WindowText(lower, chunks);
    PrintedThreadsAreSpoken(normalize, lower, chunks, labels);
    CoveredExactly(m, units, Reconstructed(normalize, ParsedSequences(text), labels), SequenceMap(text), n);
    SpeakingIsActing(normalize, ParsedSequences(text), labels, n);
  }

  lemma {:induction false} SomeTopic(turns: seq<Turn>, t: Turn)
    requires t in turns && t.topic != ""
    ensures FirstTopic(turns) != ""
  {
    Whole(turns);
    if t in turns[..|turns| - 1] {
      SomeTopic(turns[..|turns| - 1], t);
    }
  }

  // Every line of a label with an action role is cited after the merge, if the
  // labels of its key are heard, as they are when this one has a topic.
  lemma ActionLabelIsCovered(m: Matcher, normalize: string -> string, lower: char -> char, chunks: seq<Speech>,
                             labels: seq<Labelled>, units: seq<Unit>, k: nat, n: int)
    requires k < |labels| && HasAction(labels[k].roles) && Gives(labels[k], ParsedSequences(WindowText(lower, chunks)), n)
    ensures var text := WindowText(lower, chunks);
            var transcript := ParsedSequences(text);
            var turns := OfKey(normalize, TurnsFrom(transcript, labels), KeyOf(normalize, TurnAt(labels[k], transcript, n)));
            && (Heard(turns) ==> n in Covered(Merged(m, units, Reconstructed(normalize, transcript, labels), SequenceMap(text))))
            && (Collapse(labels[k].topic) != "" ==> Heard(turns))
  {
    var transcript := ParsedSequences(WindowText(lower, chunks));
    var t := TurnAt(labels[k], transcript, n);
    var turns := OfKey(normalize, TurnsFrom(transcript, labels), KeyOf(normalize, t));
    LabelsAreCovered(m, normalize, lower, chunks, labels, units, n);
    var thread := LabelIsHeld(normalize, transcript, labels, k, n);
    FirstNumbers(turns);
    RolesOfAll(turns, t);
    if t.topic != "" {
      SomeTopic(turns, t);
    }
    if Heard(turns) {
      assert ActsOn(turns, n);
    }
  }

  // ----- an action that is not heard

  const AFact := Labelled({RFact}, "a", "", "", [0])

  const ARequest := Labelled({RRequest}, "b", "", "", [0])

  lemma OneTurn(transcript: map<int, string>, u: Labelled)
    requires 0 in transcript && u.ids == [0] && u.roles != {} && Collapse(u.meaning) != ""
    ensures TurnsOf(transcript, u) == [TurnAt(u, transcript, 0)]
  {
    var n := u.ids[|u.ids| - 1];
    assert n == 0 && u.ids[..0] == [] && TurnsAt(transcript, u, []) == [];
    assert TurnsAt(transcript, u, u.ids) == [] + [TurnAt(u, transcript, 0)];
  }

  lemma CollectsTwo(transcript: map<int, string>, a: Labelled, b: Labelled, first: Turn, second: Turn)
    requires TurnsOf(transcript, a) == [first] && TurnsOf(transcript, b) == [second]
    ensures CollectTurns(transcript, [a, b]) == [first, second]
  {
    assert [a, b][..1] == [a] && [a][..0] == [];
    assert CollectTurns(transcript, [a]) == [first];
  }

  lemma SortsTwo(first: Turn, second: Turn)
    requires !Precedes(second, first)
    ensures SortTurns([first, second]) == [first, second]
  {
    assert [first, second][..1] == [first] && [first][..0] == [];
    assert SortTurns([first]) == [first];
    assert SortTurns([first, second]) == InsertTurn([first], second);
  }

  lemma BothTurns(transcript: map<int, string>)
    requires 0 in transcript
    ensures TurnsFrom(transcript, [AFact, ARequest]) == [TurnAt(AFact, transcript, 0), TurnAt(ARequest, transcript, 0)]
    ensures TurnAt(AFact, transcript, 0).topic == "" == TurnAt(ARequest, transcript, 0).topic
  {
    CollapseFixed("");
    CollapseFixed("a");
    CollapseFixed("b");
    OneTurn(transcript, AFact);
    OneTurn(transcript, ARequest);
    CollectsTwo(transcript, AFact, ARequest, TurnAt(AFact, transcript, 0), TurnAt(ARequest, transcript, 0));
    SortsTwo(TurnAt(AFact, transcript, 0), TurnAt(ARequest, transcript, 0));
  }

  lemma {:induction false} NoTopic(turns: seq<Turn>)
    requires forall t :: t in turns ==> t.topic == ""
    ensures FirstTopic(turns) == ""
  {
    if turns != [] {
      assert turns[|turns| - 1] in turns;
      NoTopic(turns[..|turns| - 1]);
    }
  }

  lemma NotHeard(fact: Turn, request: Turn)
    requires fact.topic == "" && request.topic == "" && fact.sequence == request.sequence && !HasAction(fact.roles)
    ensures !Heard([fact, request])
  {
    var turns := [fact, request];
    NoTopic(turns);
    forall i: nat
      ensures !IsFirstAction(turns, i)
    {
      if i == 1 {
        assert turns[0].sequence == turns[1].sequence;
      }
    }
  }

  lemma NothingActs(normalize: string -> string, fact: Turn, request: Turn, key: string)
    requires fact.topic == "" && request.topic == "" && fact.sequence == request.sequence && !HasAction(fact.roles)
    requires KeyOf(normalize, fact) == KeyOf(normalize, request)
    ensures !ActsOn(OfKey(normalize, [fact, request], key), 0)
  {
    NotHeard(fact, request);
    OfBothTurns(normalize, fact, request, key);
  }

  lemma NoKeyActs(normalize: string -> string, transcript: map<int, string>, key: string)
    requires 0 in transcript
    ensures !ActsOn(OfKey(normalize, TurnsFrom(transcript, [AFact, ARequest]), key), 0)
  {
    BothTurns(transcript);
    NothingActs(normalize, TurnAt(AFact, transcript, 0), TurnAt(ARequest, transcript, 0), key);
  }

  // A request without a topic is lost when a label that is no action comes
  // before it on the same line: the thread keeps the other turn and has no name.
  lemma RequestIsLost(m: Matcher, normalize: string -> string, lower: char -> char, chunks: seq<Speech>)
    requires 0 in ParsedSequences(WindowText(lower, chunks))
    ensures var text := WindowText(lower, chunks);
            0 !in Covered(Merged(m, [], Reconstructed(normalize, ParsedSequences(text), [AFact, ARequest]), SequenceMap(text)))
  {
    var transcript := ParsedSequences(WindowText(lower, chunks));
    LabelsAreCovered(m, normalize, lower, chunks, [AFact, ARequest], [], 0);
    forall key: string
      ensures !ActsOn(OfKey(normalize, TurnsFrom(transcript, [AFact, ARequest]), key), 0)
    {
      NoKeyActs(normalize, transcript, key);
    }
  }

  lemma OfBothTurns(normalize: string -> string, fact: Turn, request: Turn, key: string)
    requires KeyOf(normalize, fact) == KeyOf(normalize, request)
    ensures OfKey(normalize, [fact, request], key) == if KeyOf(normalize, fact) == key then [fact, request] else []
  {
    assert [fact, request][..1] == [fact] && [fact][..0] == [];
    assert OfKey(normalize, [fact], key) == if KeyOf(normalize, fact) == key then [fact] else [];
  }
}

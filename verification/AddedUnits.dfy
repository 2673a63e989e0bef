// The units the merge adds: which threads they are made from, and what they say
// (services/conversation/task_coverage.py).

module AddedUnits {
  import opened Seqs
  import opened Text
  import opened Artifacts
  import opened Evidence
  import opened Citations
  import opened Threads
  import opened TaskCoverage

  // A role that asks somebody to do something.
  predicate Acts(roles: set<Role>) {
    RAction in roles || RCommitment in roles || RRequest in roles || RInstruction in roles || RFollowUp in roles || RAssignment in roles
  }

  predicate ActingTurn(t: Turn) {
    Acts(t.roles) && Strip(t.meaning) != ""
  }

  // The i-th turn is the first one that asks for something and says what.
  predicate FirstActing(turns: seq<Turn>, i: nat) {
    i < |turns| && ActingTurn(turns[i]) && forall j :: 0 <= j < i ==> !ActingTurn(turns[j])
  }

  // The kinds of an added unit, the most telling role first.
  const Kinds := [(RRequest, "request"), (RAssignment, "assignment"), (RAction, "action"), (RInstruction, "instruction"),
                  (RFollowUp, "follow_up"), (RCommitment, "commitment")]

  predicate FirstKind(roles: set<Role>, k: nat) {
    k < |Kinds| && Kinds[k].0 in roles && forall j :: 0 <= j < k ==> Kinds[j].0 !in roles
  }

  // The unit says what the thread says: it has the thread's key, or one made of
  // its least number; the first kind of its roles; the first thing it asks for,
  // or else its topic.
  ghost predicate SaysThread(u: Unit, thread: Thread) {
    && (if thread.threadKey != "" then u.key == thread.threadKey
        else exists n :: IsLeast(Threads.Sequences(thread.turns), n) && u.key == "thread-" + IntText(n))
    && (exists k: nat :: FirstKind(thread.roles, k) && u.kind == Kinds[k].1)
    && (if exists i: nat :: FirstActing(thread.turns, i)
        then exists i: nat :: FirstActing(thread.turns, i) && u.meaning == Strip(thread.turns[i].meaning)
        else u.meaning == Strip(thread.topic))
    && u.meaning != "" && u.state == "unresolved"
  }

  lemma KindIsFirst(roles: set<Role>) returns (k: nat)
    requires HasAction(roles)
    ensures FirstKind(roles, k) && ActionKind(roles) == Kinds[k].1 && Acts(roles)
  {
    var r :| r in roles * ActionRoles;
    k := if RRequest in roles then 0 else if RAssignment in roles then 1 else if RAction in roles then 2
    else if RInstruction in roles then 3 else if RFollowUp in roles then 4 else 5;
  }

  lemma HasActionActs(roles: set<Role>)
    ensures HasAction(roles) <==> Acts(roles)
  {
    if Acts(roles) {
      var r :| r in roles && r in ActionRoles;
      assert r in roles * ActionRoles;
    } else if HasAction(roles) {
      var k := KindIsFirst(roles);
    }
  }

  lemma {:induction false} MeaningIsFirst(turns: seq<Turn>) returns (i: nat)
    ensures if ActionMeaning(turns) == "" then forall j :: 0 <= j < |turns| ==> !ActingTurn(turns[j])
            else FirstActing(turns, i) && ActionMeaning(turns) == Strip(turns[i].meaning)
  {
    i := 0;
    if turns != [] {
      HasActionActs(turns[0].roles);
      if !ActingTurn(turns[0]) {
        var k := MeaningIsFirst(turns[1..]);
        i := k + 1;
        assert forall j :: 1 <= j < |turns| ==> turns[j] == turns[1..][j - 1];
      }
    }
  }

  lemma UnitSaysThread(thread: Thread)
    requires Speaks(thread)
    ensures SaysThread(UnitOf(thread), thread)
  {
    var k := KindIsFirst(thread.roles);
    var i := MeaningIsFirst(thread.turns);
    assert IsLeast(Threads.Sequences(thread.turns), Least(Threads.Sequences(thread.turns)));
  }

  // A unit cites a number if it is one of its own or lies within one of its spans.
  lemma {:induction false} SpanNumbersAre(spans: seq<Span>, n: int)
    ensures n in SpanNumbers(spans) <==> exists s :: s in spans && s.sequenceStart <= n <= s.sequenceEnd
  {
    if spans != [] {
      SpanNumbersAre(spans[..|spans| - 1], n);
      Whole(spans);
    }
  }

  lemma {:induction false} IdsAre(ids: seq<int>, n: int)
    ensures n in IdSet(ids) <==> n in ids
  {
    if ids != [] {
      IdsAre(ids[..|ids| - 1], n);
      Whole(ids);
    }
  }

  ghost predicate CitesNumber(u: Unit, n: int) {
    n in u.evidenceIds || exists s :: s in u.evidence && s.sequenceStart <= n <= s.sequenceEnd
  }

  lemma {:induction false} CoveredAre(units: seq<Unit>, n: int)
    ensures n in Covered(units) <==> exists u :: u in units && CitesNumber(u, n)
  {
    if units != [] {
      var u := units[|units| - 1];
      CoveredAre(units[..|units| - 1], n);
      IdsAre(u.evidenceIds, n);
      SpanNumbersAre(u.evidence, n);
      Whole(units);
      assert n in UnitNumbers(u) <==> CitesNumber(u, n);
      forall v
        ensures v in units <==> v in units[..|units| - 1] || v == u
      {
      }
    }
  }

  // Every unit found is that of a speaking thread with a number not cited before.
  lemma {:induction false} ExtraIs(units: seq<Unit>, threads: seq<Thread>, j: nat) returns (i: nat)
    requires j < |LookAll(units, threads).extras|
    ensures i < |threads| && Speaks(threads[i]) && LookAll(units, threads).extras[j] == UnitOf(threads[i])
    ensures !(Threads.Sequences(threads[i].turns) <= Covered(units))
    ensures Covered(units) <= LookAll(units, threads).covered
  {
    var n := |threads| - 1;
    CoveredGrows(units, threads);
    CoveredGrows(units, threads[..n]);
    if j < |LookAll(units, threads[..n]).extras| {
      i := ExtraIs(units, threads[..n], j);
    } else {
      i := n;
    }
  }

  lemma {:induction false} CoveredGrows(units: seq<Unit>, threads: seq<Thread>)
    ensures Covered(units) <= LookAll(units, threads).covered
  {
    if threads != [] {
      CoveredGrows(units, threads[..|threads| - 1]);
    }
  }

  // The given units stay; each added one says what some thread says that asks
  // for something on a line no given unit cites.
  lemma AddedUnitIs(m: Matcher, units: seq<Unit>, threads: seq<Thread>, lines: map<int, string>, k: nat) returns (i: nat)
    requires |units| <= k < |TaskCoverage.Merged(m, units, threads, lines)|
    ensures units <= TaskCoverage.Merged(m, units, threads, lines)
    ensures i < |threads| && Acts(threads[i].roles) && SaysThread(TaskCoverage.Merged(m, units, threads, lines)[k], threads[i])
    ensures exists n :: n in Threads.Sequences(threads[i].turns) && n !in Covered(units)
  {
    var extras, at := LookAll(units, threads).extras, k - |units|;
    KeptCitesExactly(m, extras, lines, at, 0);
    i := ExtraIs(units, threads, Positions(m, extras, lines)[at]);
    UnitSaysThread(threads[i]);
    HasActionActs(threads[i].roles);
    assert TaskCoverage.Merged(m, units, threads, lines)[k] == Kept(m, extras, lines)[at];
  }
}

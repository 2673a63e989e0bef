// What a decision does to the artifacts, field by field, and that it lasts until
// the next decision about the same artifact.

module ArtifactEffects {
  import opened Seqs
  import opened Text
  import opened Artifacts
  import opened ArtifactLedger

  // ----- what is merged

  // The values that are not empty, each where it first occurs.
  ghost function Firsts(values: seq<string>): seq<string> {
    if values == [] then []
    else
      var n := |values| - 1;
      Firsts(values[..n]) + if values[n] != "" && values[n] !in values[..n] then [values[n]] else []
  }

  lemma {:induction false} UniqueIsFirsts(values: seq<string>)
    ensures Unique(values) == Firsts(values)
    ensures forall v :: v in Unique(values) <==> v != "" && v in values
  {
    if values != [] {
      UniqueIsFirsts(values[..|values| - 1]);
      EmptyRight(Firsts(values[..|values| - 1]));
      Whole(values);
    }
  }

  // The values of two lists, in order and each once, without the empty one.
  ghost predicate HasBoth(list: seq<string>, a: seq<string>, b: seq<string>) {
    list == Firsts(a + b)
  }

  lemma UniqueOfBoth(a: seq<string>, b: seq<string>)
    ensures HasBoth(Unique(a + b), a, b)
  {
    UniqueIsFirsts(a + b);
  }

  lemma {:induction false} UniqueTwice(values: seq<string>)
    ensures Unique(Unique(values)) == Unique(values)
  {
    if values != [] {
      UniqueTwice(values[..|values| - 1]);
      Snoc(Unique(values[..|values| - 1]), values[|values| - 1]);
    }
  }

  // Adding a value a second time changes nothing.
  lemma AddedTwice(values: seq<string>, v: string)
    ensures Unique(Unique(values + [v]) + [v]) == Unique(values + [v])
  {
    var once := Unique(values + [v]);
    UniqueIsFirsts(values + [v]);
    UniqueTwice(values + [v]);
    Snoc(once, v);
    assert v != "" ==> v in once;
  }

  // Two spans are the same when they have the same numbers and their texts
  // agree in 80 characters.
  predicate SameSpan(lex: Lexicon, s: Span, t: Span) {
    var x, y := lex.normalize(s.text), lex.normalize(t.text);
    && s.sequenceStart == t.sequenceStart && s.sequenceEnd == t.sequenceEnd
    && (if |x| <= 80 then x else x[..80]) == if |y| <= 80 then y else y[..80]
  }

  ghost predicate IsNewSpan(lex: Lexicon, spans: seq<Span>, i: nat)
    requires i < |spans|
  {
    forall j :: 0 <= j < i ==> !SameSpan(lex, spans[j], spans[i])
  }

  ghost function NewSpans(lex: Lexicon, spans: seq<Span>): seq<Span> {
    if spans == [] then []
    else
      var n := |spans| - 1;
      NewSpans(lex, spans[..n]) + if IsNewSpan(lex, spans, n) then [spans[n]] else []
  }

  // The spans of both lists, each once and in order, but no more than eight.
  ghost predicate Merges(lex: Lexicon, a: seq<Span>, b: seq<Span>, result: seq<Span>) {
    var all := NewSpans(lex, a + b);
    result == if |all| <= 8 then all else all[..8]
  }

  lemma {:induction false} KeyIsThere(lex: Lexicon, spans: seq<Span>, s: Span)
    ensures SpanKey(lex, s) in SpanKeys(lex, spans) <==> exists j :: 0 <= j < |spans| && SameSpan(lex, spans[j], s)
  {
    if spans != [] {
      var init := spans[..|spans| - 1];
      KeyIsThere(lex, init, s);
      if exists j :: 0 <= j < |init| && SameSpan(lex, init[j], s) {
        var j :| 0 <= j < |init| && SameSpan(lex, init[j], s);
        assert spans[j] == init[j];
      }
      if exists j :: 0 <= j < |spans| && SameSpan(lex, spans[j], s) {
        var j :| 0 <= j < |spans| && SameSpan(lex, spans[j], s);
        assert j < |init| ==> init[j] == spans[j];
      }
    }
  }

  lemma {:induction false} DistinctAreNew(lex: Lexicon, spans: seq<Span>)
    ensures DistinctSpans(lex, spans) == NewSpans(lex, spans)
  {
    if spans != [] {
      var n := |spans| - 1;
      DistinctAreNew(lex, spans[..n]);
      KeyIsThere(lex, spans[..n], spans[n]);
      EmptyRight(NewSpans(lex, spans[..n]));
      if !IsNewSpan(lex, spans, n) {
        var j :| 0 <= j < n && SameSpan(lex, spans[j], spans[n]);
        assert spans[..n][j] == spans[j];
      }
    }
  }

  lemma MergedBoth(lex: Lexicon, a: seq<Span>, b: seq<Span>)
    ensures Merges(lex, a, b, MergeEvidence(lex, a, b))
  {
    DistinctAreNew(lex, a + b);
  }

  // What a target takes over of the sources of an incoming artifact.
  ghost predicate TakesSources(lex: Lexicon, was: Artifact, x: Artifact, after: Artifact) {
    && HasBoth(after.windowIds, was.windowIds, x.windowIds)
    && Members(after.chunkIds) == Members(was.chunkIds) + Members(x.chunkIds) && IsAscending(after.chunkIds)
    && Merges(lex, was.evidence, x.evidence, after.evidence)
  }

  lemma SourcesTaken(lex: Lexicon, noted: Artifact, x: Artifact)
    ensures TakesSources(lex, noted, x, MergeSources(lex, noted, x))
  {
    UniqueOfBoth(noted.windowIds, x.windowIds);
    SourcesMerge(lex, noted, x);
    SortedAscends(noted.chunkIds + x.chunkIds);
    MergedBoth(lex, noted.evidence, x.evidence);
  }

  // ----- what is noted

  // The last entry of the history says what came, from where, why, and what was
  // there before; at most seven older entries stay.
  predicate Notes(was: Artifact, x: Artifact, kind: ResolutionKind, action: ReconcileAction, after: Artifact) {
    var kept := if |was.history| <= 7 then was.history else was.history[|was.history| - 7..];
    after.history == kept + [HistoryEntry(x.windowId, kind, if x.content != "" then x.content else x.title, was.content,
                                          x.evidence, Some(action))]
  }

  // ----- what becomes of a target

  ghost predicate IsCompleted(lex: Lexicon, was: Artifact, x: Artifact, action: ReconcileAction, after: Artifact) {
    && after == was.(status := LifecycleStatus.Completed, operation := OpComplete, windowIds := after.windowIds,
                chunkIds := after.chunkIds, evidence := after.evidence, history := after.history)
    && TakesSources(lex, was, x, after) && Notes(was, x, Completion, action, after)
  }

  ghost predicate IsCancelled(lex: Lexicon, was: Artifact, x: Artifact, action: ReconcileAction, after: Artifact) {
    && after == was.(status := Cancelled, operation := OpCancel, windowIds := after.windowIds,
                chunkIds := after.chunkIds, evidence := after.evidence, history := after.history)
    && TakesSources(lex, was, x, after) && Notes(was, x, Contradiction, action, after)
  }

  predicate IsSuperseded(was: Artifact, x: Artifact, action: ReconcileAction, after: Artifact) {
    && after == was.(status := Superseded, supersededBy := x.id, history := after.history)
    && Notes(was, x, Contradiction, action, after)
  }

  ghost predicate IsRelated(was: Artifact, x: Artifact, after: Artifact) {
    after == was.(relatedIds := after.relatedIds) && HasBoth(after.relatedIds, was.relatedIds, [x.id])
  }

  // The earliest start and the latest end that are known, and the higher confidence.
  predicate Widens(was: Artifact, x: Artifact, after: Artifact) {
    && after.startIndex == (if was.startIndex.None? then x.startIndex
                            else if x.startIndex.Some? && x.startIndex.value < was.startIndex.value then x.startIndex else was.startIndex)
    && after.endIndex == (if was.endIndex.None? then x.endIndex
                          else if x.endIndex.Some? && x.endIndex.value > was.endIndex.value then x.endIndex else was.endIndex)
    && after.confidence == (if was.confidence < x.confidence then x.confidence else was.confidence)
  }

  // What the incoming artifact says replaces what the target says; a text that
  // is shorter does so only when it brings a new word.
  predicate Overwrites(lex: Lexicon, was: Artifact, x: Artifact, after: Artifact) {
    && after.title == (if x.title == "" then was.title else x.title)
    && after.ownerText == (if x.ownerText == "" then was.ownerText else x.ownerText)
    && after.ownerUserId == (if x.ownerUserId == "" then was.ownerUserId else x.ownerUserId)
    && after.dueDateText == (if x.dueDateText == "" then was.dueDateText else x.dueDateText)
    && after.dueDateResolved == (if x.dueDateResolved == "" then was.dueDateResolved else x.dueDateResolved)
    && after.dueDateStatus == (if x.dueDateStatus == "none" then was.dueDateStatus else x.dueDateStatus)
    && after.topic == (if x.topic == "" then was.topic else x.topic)
    && after.semanticHint == (if was.semanticHint == "" then x.semanticHint else was.semanticHint)
    && after.needsConfirmation == (was.needsConfirmation && x.needsConfirmation)
    && after.content == (if x.content == "" || (|x.content| < |was.content| && lex.tokens(x.content) <= lex.tokens(was.content))
                         then was.content else x.content)
  }

  ghost predicate IsUpdated(lex: Lexicon, was: Artifact, x: Artifact, action: ReconcileAction, after: Artifact) {
    && after.id == was.id && after.artifactType == was.artifactType && after.operation == was.operation
    && after.relatedIds == was.relatedIds && after.windowId == was.windowId && after.reason == was.reason
    && after.supersededBy == was.supersededBy && after.supersedes == was.supersedes
    && after.status.Active? && after.resolution.Update?
    && Overwrites(lex, was, x, after) && Widens(was, x, after)
    && TakesSources(lex, was, x, after) && Notes(was, x, Update, action, after)
  }

  ghost predicate IsDuplicated(lex: Lexicon, was: Artifact, x: Artifact, action: ReconcileAction, after: Artifact) {
    && after == was.(windowIds := after.windowIds, chunkIds := after.chunkIds, evidence := after.evidence, history := after.history,
                startIndex := after.startIndex, endIndex := after.endIndex, confidence := after.confidence)
    && Widens(was, x, after) && TakesSources(lex, was, x, after) && Notes(was, x, Duplicate, action, after)
  }

  // ----- what becomes of an incoming artifact beside its target

  ghost predicate JoinsRelated(was: Artifact, x: Artifact, after: Artifact) {
    && after == x.(status := Provisional, resolution := Related, relatedIds := after.relatedIds)
    && HasBoth(after.relatedIds, x.relatedIds, [was.id])
  }

  ghost predicate JoinsSuperseding(was: Artifact, x: Artifact, after: Artifact) {
    && after == x.(status := Confirmed, resolution := Contradiction, supersedes := was.id, relatedIds := after.relatedIds,
                reason := if x.reason != "" then x.reason else if x.content != "" then x.content else x.title)
    && HasBoth(after.relatedIds, x.relatedIds, [was.id])
  }

  // ----- one resolution

  // Whether the incoming artifact is a cancellation, whatever the decision.
  predicate CallsOff(x: Artifact) {
    x.status == Cancelled || x.status == Rejected || x.operation == OpCancel
  }

  lemma NotesAppended(was: Artifact, x: Artifact, kind: ResolutionKind, action: ReconcileAction)
    ensures Notes(was, x, kind, action, AppendHistory(was, x, kind, Some(action)))
    ensures AppendHistory(was, x, kind, Some(action)) == was.(history := AppendHistory(was, x, kind, Some(action)).history)
  {
  }

  lemma CompletedIs(lex: Lexicon, was: Artifact, x: Artifact, action: ReconcileAction)
    ensures IsCompleted(lex, was, x, action, CompletedBy(lex, was, x, Some(action)))
  {
    NotesAppended(was, x, Completion, action);
    SourcesTaken(lex, AppendHistory(was, x, Completion, Some(action)).(status := LifecycleStatus.Completed, operation := OpComplete), x);
  }

  lemma CancelledIs(lex: Lexicon, was: Artifact, x: Artifact, action: ReconcileAction)
    ensures IsCancelled(lex, was, x, action, CancelledBy(lex, was, x, Some(action)))
  {
    NotesAppended(was, x, Contradiction, action);
    SourcesTaken(lex, AppendHistory(was, x, Contradiction, Some(action)).(status := Cancelled, operation := OpCancel), x);
  }

  lemma DuplicatedIs(lex: Lexicon, was: Artifact, x: Artifact, action: ReconcileAction)
    ensures IsDuplicated(lex, was, x, action, DuplicatedBy(lex, was, x, Some(action)))
  {
    NotesAppended(was, x, Duplicate, action);
    SourcesTaken(lex, AppendHistory(was, x, Duplicate, Some(action)), x);
  }

  lemma UpdatedIs(lex: Lexicon, was: Artifact, x: Artifact, action: ReconcileAction)
    ensures IsUpdated(lex, was, x, action, UpdatedBy(lex, was, x, Some(action)))
  {
    NotesAppended(was, x, Update, action);
    SourcesTaken(lex, Updated(lex, AppendHistory(was, x, Update, Some(action)), x), x);
  }

  lemma RelatedIs(was: Artifact, x: Artifact)
    ensures IsRelated(was, x, RelatedTo(was, x))
  {
    UniqueOfBoth(was.relatedIds, [x.id]);
  }

  // ----- one decision

  // The sources of the decision are merged into the incoming artifact.
  ghost predicate Backs(lex: Lexicon, x: Artifact, verdict: Option<Verdict>, e: Artifact) {
    && e == x.(evidence := e.evidence)
    && (if verdict.None? || verdict.value.evidence == [] then e == x else Merges(lex, x.evidence, verdict.value.evidence, e.evidence))
  }

  lemma EvidencedBacks(lex: Lexicon, x: Artifact, verdict: Option<Verdict>)
    ensures Backs(lex, x, verdict, Evidenced(lex, x, verdict))
  {
    if verdict.Some? {
      MergedBoth(lex, x.evidence, verdict.value.evidence);
    }
  }

  // The first artifact with the identifier.
  predicate IsFirst(list: seq<Artifact>, id: string, i: nat) {
    i < |list| && list[i].id == id && forall j :: 0 <= j < i ==> list[j].id != id
  }

  predicate IsAbsent(list: seq<Artifact>, id: string) {
    id == "" || forall j :: 0 <= j < |list| ==> list[j].id != id
  }

  ghost predicate OnlyAt(before: seq<Artifact>, after: seq<Artifact>, i: nat) {
    |before| <= |after| && forall j :: 0 <= j < |before| && j != i ==> after[j] == before[j]
  }

  // What a decision that has a target makes of it, and of the incoming artifact.
  ghost predicate OnTarget(lex: Lexicon, action: ReconcileAction, was: Artifact, x: Artifact, after: Artifact, joins: Option<Artifact>) {
    match action
    case CompleteExisting => joins.None? && IsCompleted(lex, was, x, action, after)
    case CancelExisting => joins.None? && IsCancelled(lex, was, x, action, after)
    case UpdateExisting =>
      joins.None? && if CallsOff(x) then IsCancelled(lex, was, x, action, after) else IsUpdated(lex, was, x, action, after)
    case SupersedeExisting =>
      if CallsOff(x) then joins.None? && IsCancelled(lex, was, x, action, after)
      else joins.Some? && IsSuperseded(was, x, action, after) && JoinsSuperseding(was, x, joins.value)
    case RelatedButDistinct =>
      if CallsOff(x) then joins.None? && IsCancelled(lex, was, x, action, after)
      else joins.Some? && IsRelated(was, x, after) && JoinsRelated(was, x, joins.value)
    case CreateNew => after == was && joins == Some(x.(resolution := New))
  }

  function Beyond(after: seq<Artifact>, n: nat): Option<Artifact> {
    if n < |after| then Some(after[n]) else None
  }

  // What one decision makes of the list.
  ghost predicate TakesEffect(lex: Lexicon, before: seq<Artifact>, x: Artifact, verdict: Option<Verdict>, after: seq<Artifact>) {
    if verdict.None? || verdict.value.action.CreateNew? then after == before + [x.(resolution := New)]
    else if IsAbsent(before, verdict.value.target) then
      after == if verdict.value.action.RelatedButDistinct? then before + [x.(resolution := New)] else before
    else
      forall i: nat :: IsFirst(before, verdict.value.target, i) ==>
                         && OnlyAt(before, after, i) && |after| <= |before| + 1
                         && OnTarget(lex, verdict.value.action, before[i], x, after[i], Beyond(after, |before|))
  }

  // What the resolution of a decision with a target writes and returns.
  ghost predicate AppliedIs(lex: Lexicon, action: ReconcileAction, was: Artifact, x: Artifact, a: Applied) {
    if a.written.Some? then OnTarget(lex, action, was, x, a.written.value, Some(a.returned))
    else OnTarget(lex, action, was, x, a.returned, None)
  }

  lemma ResolutionTakesEffect(lex: Lexicon, action: ReconcileAction, was: Artifact, x: Artifact)
    requires !action.CreateNew?
    ensures AppliedIs(lex, action, was, x, ApplyResolution(lex, ResolutionFrom(action, x, Some(was))))
  {
    match action
    case CompleteExisting => CompleteTakesEffect(lex, was, x);
    case CancelExisting => CancelTakesEffect(lex, was, x);
    case UpdateExisting => UpdateTakesEffect(lex, was, x);
    case SupersedeExisting => SupersedeTakesEffect(lex, was, x);
    case RelatedButDistinct => RelatedTakesEffect(lex, was, x);
  }

  lemma CompleteTakesEffect(lex: Lexicon, was: Artifact, x: Artifact)
    ensures AppliedIs(lex, CompleteExisting, was, x, ApplyResolution(lex, ResolutionFrom(CompleteExisting, x, Some(was))))
  {
    CompletedIs(lex, was, x.(status := LifecycleStatus.Completed, operation := OpComplete, resolution := Completion), CompleteExisting);
  }

  lemma CancelTakesEffect(lex: Lexicon, was: Artifact, x: Artifact)
    ensures AppliedIs(lex, CancelExisting, was, x, ApplyResolution(lex, ResolutionFrom(CancelExisting, x, Some(was))))
  {
    CancelledIs(lex, was, x.(status := Cancelled, operation := OpCancel, resolution := Contradiction), CancelExisting);
  }

  lemma UpdateTakesEffect(lex: Lexicon, was: Artifact, x: Artifact)
    ensures AppliedIs(lex, UpdateExisting, was, x, ApplyResolution(lex, ResolutionFrom(UpdateExisting, x, Some(was))))
  {
    var incoming := x.(resolution := Update);
    if CallsOff(x) {
      CancelledIs(lex, was, incoming, UpdateExisting);
    } else {
      UpdatedIs(lex, was, incoming, UpdateExisting);
    }
  }

  lemma SupersedeTakesEffect(lex: Lexicon, was: Artifact, x: Artifact)
    ensures AppliedIs(lex, SupersedeExisting, was, x, ApplyResolution(lex, ResolutionFrom(SupersedeExisting, x, Some(was))))
  {
    var incoming := x.(resolution := Contradiction);
    if CallsOff(x) {
      CancelledIs(lex, was, incoming, SupersedeExisting);
    } else {
      SupersededIs(was, incoming, SupersedeExisting);
      SupersedingIs(was, incoming);
    }
  }

  lemma SupersededIs(was: Artifact, x: Artifact, action: ReconcileAction)
    ensures IsSuperseded(was, x, action, SupersededBy(was, x, Some(action)))
  {
    NotesAppended(was, x, Contradiction, action);
  }

  lemma SupersedingIs(was: Artifact, x: Artifact)
    requires x.resolution == Contradiction
    ensures JoinsSuperseding(was, x, Superseding(x, was))
  {
    UniqueOfBoth(x.relatedIds, [was.id]);
  }

  lemma RelatedTakesEffect(lex: Lexicon, was: Artifact, x: Artifact)
    ensures AppliedIs(lex, RelatedButDistinct, was, x, ApplyResolution(lex, ResolutionFrom(RelatedButDistinct, x, Some(was))))
  {
    var incoming := x.(relatedIds := Unique(x.relatedIds + [was.id]), resolution := Related);
    if CallsOff(x) {
      CancelledIs(lex, was, incoming, RelatedButDistinct);
    } else {
      RelatedIs(was, incoming);
      JoinsRelatedIs(was, x);
    }
  }

  lemma JoinsRelatedIs(was: Artifact, x: Artifact)
    ensures var incoming := x.(relatedIds := Unique(x.relatedIds + [was.id]), resolution := Related);
            JoinsRelated(was, x, RelatedTo(incoming, was).(status := Provisional))
  {
    UniqueOfBoth(x.relatedIds, [was.id]);
    AddedTwice(x.relatedIds, was.id);
  }

  // A duplicate, which no decision asks for, only adds its sources.
  lemma DuplicateTakesEffect(lex: Lexicon, was: Artifact, x: Artifact, action: ReconcileAction)
    requires !CallsOff(x)
    ensures var a := ApplyResolution(lex, Resolution(x, Duplicate, Some(was), action));
            a.written.None? && IsDuplicated(lex, was, x, action, a.returned)
  {
    DuplicatedIs(lex, was, x.(resolution := Duplicate), action);
  }

  // ----- one round of the fold

  lemma FirstIsFound(list: seq<Artifact>, id: string, i: nat)
    requires IsFirst(list, id, i)
    ensures FindById(list, id) == Some(i)
  {
    FoundById(list, id);
  }

  lemma AbsentIsNotFound(list: seq<Artifact>, id: string)
    ensures IsAbsent(list, id) <==> id == "" || FindById(list, id).None?
  {
    FoundById(list, id);
  }

  lemma OnTargetKeepsId(lex: Lexicon, action: ReconcileAction, was: Artifact, x: Artifact, after: Artifact, joins: Option<Artifact>)
    requires OnTarget(lex, action, was, x, after, joins)
    ensures after.id == was.id && (joins.Some? ==> joins.value.id == x.id)
  {
  }

  // Writing what a resolution gives changes the target and appends what joins.
  lemma WriteOnTarget(lex: Lexicon, action: ReconcileAction, before: seq<Artifact>, i: nat, x: Artifact, a: Applied)
    requires i < |before| && FindById(before, before[i].id) == Some(i) && FindById(before, x.id).None?
    requires AppliedIs(lex, action, before[i], x, a)
    ensures var after := Write(before, a);
            && OnlyAt(before, after, i) && |after| <= |before| + 1
            && OnTarget(lex, action, before[i], x, after[i], Beyond(after, |before|))
  {
    if a.written.Some? {
      OnTargetKeepsId(lex, action, before[i], x, a.written.value, Some(a.returned));
      WritesTarget(before, i, a.written.value);
      FindsSame(before, i, a.written.value, x.id);
      AddsNew(before[i := a.written.value], a.returned);
    } else {
      OnTargetKeepsId(lex, action, before[i], x, a.returned, None);
      WritesTarget(before, i, a.returned);
    }
  }

  lemma NewTakesEffect(lex: Lexicon, before: seq<Artifact>, x: Artifact, verdict: Option<Verdict>)
    requires FindById(before, x.id).None?
    requires verdict.None? || verdict.value.action.CreateNew?
             || (IsAbsent(before, verdict.value.target) && verdict.value.action.RelatedButDistinct?)
    ensures Reconcile(lex, before, x, verdict) == before + [Evidenced(lex, x, verdict).(resolution := New)]
  {
    if verdict.Some? {
      AbsentIsNotFound(before, verdict.value.target);
    }
    AddsNew(before, Evidenced(lex, x, verdict).(resolution := New));
  }

  lemma TargetTakesEffect(lex: Lexicon, before: seq<Artifact>, x: Artifact, verdict: Verdict, i: nat)
    requires FindById(before, x.id).None? && verdict.target != "" && IsFirst(before, verdict.target, i) && !verdict.action.CreateNew?
    ensures var after := Reconcile(lex, before, x, Some(verdict));
            && OnlyAt(before, after, i) && |after| <= |before| + 1
            && OnTarget(lex, verdict.action, before[i], Evidenced(lex, x, Some(verdict)), after[i], Beyond(after, |before|))
  {
    var e := Evidenced(lex, x, Some(verdict));
    FirstIsFound(before, verdict.target, i);
    ResolutionTakesEffect(lex, verdict.action, before[i], e);
    WriteOnTarget(lex, verdict.action, before, i, e, ApplyResolution(lex, ResolutionFrom(verdict.action, e, Some(before[i]))));
  }

  lemma DecisionTakesEffect(lex: Lexicon, before: seq<Artifact>, x: Artifact, verdict: Option<Verdict>)
    requires FindById(before, x.id).None?
    ensures TakesEffect(lex, before, Evidenced(lex, x, verdict), verdict, Reconcile(lex, before, x, verdict))
  {
    if verdict.None? || verdict.value.action.CreateNew? {
      NewTakesEffect(lex, before, x, verdict);
    } else if IsAbsent(before, verdict.value.target) {
      AbsentIsNotFound(before, verdict.value.target);
      if verdict.value.action.RelatedButDistinct? {
        NewTakesEffect(lex, before, x, verdict);
      }
    } else {
      forall i: nat | IsFirst(before, verdict.value.target, i)
        ensures var after := Reconcile(lex, before, x, verdict);
                && OnlyAt(before, after, i) && |after| <= |before| + 1
                && OnTarget(lex, verdict.value.action, before[i], Evidenced(lex, x, verdict), after[i], Beyond(after, |before|))
      {
        TargetTakesEffect(lex, before, x, verdict.value, i);
      }
    }
  }

  // ----- the whole fold

  // The last decision about an incoming artifact counts.
  lemma {:induction false} VerdictIsLast(verdicts: seq<Verdict>, index: nat)
    ensures match VerdictFor(verdicts, index)
            case Some(v) => exists p :: 0 <= p < |verdicts| && verdicts[p] == v && v.incomingIndex == index
                                        && forall q :: p < q < |verdicts| ==> verdicts[q].incomingIndex != index
            case None => forall p :: 0 <= p < |verdicts| ==> verdicts[p].incomingIndex != index
  {
    if verdicts != [] {
      var n := |verdicts| - 1;
      VerdictIsLast(verdicts[..n], index);
      if verdicts[n].incomingIndex != index && VerdictFor(verdicts[..n], index).Some? {
        var p :| 0 <= p < n && verdicts[..n][p] == VerdictFor(verdicts, index).value
                 && forall q :: p < q < n ==> verdicts[..n][q].incomingIndex != index;
        assert verdicts[p] == VerdictFor(verdicts, index).value;
        assert forall q :: p < q < n ==> verdicts[q] == verdicts[..n][q];
      }
    }
  }

  predicate Names(verdict: Option<Verdict>, id: string) {
    verdict.Some? && verdict.value.target == id && !verdict.value.action.CreateNew?
  }

  lemma UnnamedStays(lex: Lexicon, before: seq<Artifact>, x: Artifact, verdict: Option<Verdict>, i: nat)
    requires FindById(before, x.id).None? && i < |before| && !Names(verdict, before[i].id)
    ensures i < |Reconcile(lex, before, x, verdict)| && Reconcile(lex, before, x, verdict)[i] == before[i]
  {
    ReconcileExtends(lex, before, x, verdict);
    TargetIsMatched(before, verdict);
    if verdict.Some? {
      FoundById(before, verdict.value.target);
    }
  }

  lemma RoundOfLedger(lex: Lexicon, existing: seq<Artifact>, incoming: seq<Artifact>, verdicts: seq<Verdict>, k: nat)
    requires AreFresh(existing, incoming) && k < |incoming|
    ensures var before := Ledger(lex, existing, incoming[..k], verdicts);
            && AreFresh(existing, incoming[..k]) && FindById(before, incoming[k].id).None?
            && Ledger(lex, existing, incoming[..k + 1], verdicts) == Reconcile(lex, before, incoming[k], VerdictFor(verdicts, k))
  {
    TakeSnoc(incoming, k);
    assert AreFresh(existing, incoming[..k + 1]);
    assert AreFresh(existing, incoming[..k]);
    LedgerOriginates(lex, existing, incoming[..k], verdicts);
    NextIsFresh(existing, incoming[..k + 1], Ledger(lex, existing, incoming[..k], verdicts));
  }

  // An artifact that no later decision names stays as it is.
  lemma {:induction false} UnnamedLasts(lex: Lexicon, existing: seq<Artifact>, incoming: seq<Artifact>, verdicts: seq<Verdict>,
                                        k: nat, m: nat, i: nat)
    requires AreFresh(existing, incoming) && k <= m <= |incoming| && i < |Ledger(lex, existing, incoming[..k], verdicts)|
    requires forall j :: k <= j < m ==> !Names(VerdictFor(verdicts, j), Ledger(lex, existing, incoming[..k], verdicts)[i].id)
    ensures i < |Ledger(lex, existing, incoming[..m], verdicts)|
    ensures Ledger(lex, existing, incoming[..m], verdicts)[i] == Ledger(lex, existing, incoming[..k], verdicts)[i]
    decreases m
  {
    if k < m {
      UnnamedLasts(lex, existing, incoming, verdicts, k, m - 1, i);
      RoundOfLedger(lex, existing, incoming, verdicts, m - 1);
      UnnamedStays(lex, Ledger(lex, existing, incoming[..m - 1], verdicts), incoming[m - 1], VerdictFor(verdicts, m - 1), i);
    }
  }

  // Every decision takes effect on the list that the ones before it have left.
  lemma EachTakesEffect(lex: Lexicon, existing: seq<Artifact>, incoming: seq<Artifact>, verdicts: seq<Verdict>, k: nat)
    returns (x: Artifact)
    requires AreFresh(existing, incoming) && k < |incoming|
    ensures Backs(lex, incoming[k], VerdictFor(verdicts, k), x)
    ensures TakesEffect(lex, Ledger(lex, existing, incoming[..k], verdicts), x, VerdictFor(verdicts, k),
                        Ledger(lex, existing, incoming[..k + 1], verdicts))
  {
    x := Evidenced(lex, incoming[k], VerdictFor(verdicts, k));
    EvidencedBacks(lex, incoming[k], VerdictFor(verdicts, k));
    RoundOfLedger(lex, existing, incoming, verdicts, k);
    DecisionTakesEffect(lex, Ledger(lex, existing, incoming[..k], verdicts), incoming[k], VerdictFor(verdicts, k));
  }

  // The last decision about an artifact is what the result shows of it.
  lemma LastDecisionShows(lex: Lexicon, existing: seq<Artifact>, incoming: seq<Artifact>, verdicts: seq<Verdict>, k: nat, i: nat)
    returns (x: Artifact, joins: Option<Artifact>)
    requires AreFresh(existing, incoming) && k < |incoming| && VerdictFor(verdicts, k).Some?
    requires var v := VerdictFor(verdicts, k).value;
             && v.target != "" && !v.action.CreateNew? && IsFirst(Ledger(lex, existing, incoming[..k], verdicts), v.target, i)
             && forall j :: k < j < |incoming| ==> !Names(VerdictFor(verdicts, j), v.target)
    ensures Backs(lex, incoming[k], VerdictFor(verdicts, k), x)
    ensures var before, after := Ledger(lex, existing, incoming[..k], verdicts), Ledger(lex, existing, incoming, verdicts);
            && i < |after| && OnTarget(lex, VerdictFor(verdicts, k).value.action, before[i], x, after[i], joins)
            && (joins.Some? && (forall j :: k < j < |incoming| ==> !Names(VerdictFor(verdicts, j), incoming[k].id)) ==>
                  |before| < |after| && after[|before|] == joins.value)
  {
    var v, before, mid := VerdictFor(verdicts, k).value, Ledger(lex, existing, incoming[..k], verdicts),
                          Ledger(lex, existing, incoming[..k + 1], verdicts);
    x := EachTakesEffect(lex, existing, incoming, verdicts, k);
    joins := Beyond(mid, |before|);
    OnTargetKeepsId(lex, v.action, before[i], x, mid[i], joins);
    UnnamedLasts(lex, existing, incoming, verdicts, k + 1, |incoming|, i);
    TakeAll(incoming);
    if joins.Some? && forall j :: k < j < |incoming| ==> !Names(VerdictFor(verdicts, j), incoming[k].id) {
      UnnamedLasts(lex, existing, incoming, verdicts, k + 1, |incoming|, |before|);
    }
  }
}

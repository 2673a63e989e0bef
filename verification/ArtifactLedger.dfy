// Folding the decisions of the reconciliation model over the known artifacts
// (services/conversation/artifact_resolver.py). The decisions are arbitrary.

module ArtifactLedger {
  import opened Seqs
  import opened Text
  import opened Artifacts

  datatype Verdict = Verdict(incomingIndex: nat, action: ReconcileAction, target: string, evidence: seq<Span>)

  // ----- small lists

  function Unique(values: seq<string>): seq<string> {
    if values == [] then []
    else
      var init, last := Unique(values[..|values| - 1]), values[|values| - 1];
      if last == "" || last in init then init else init + [last]
  }

  function InsertSorted(numbers: seq<int>, x: int): seq<int> {
    if numbers == [] || numbers[|numbers| - 1] < x then numbers + [x]
    else if numbers[|numbers| - 1] == x then numbers
    else InsertSorted(numbers[..|numbers| - 1], x) + [numbers[|numbers| - 1]]
  }

  // `sorted(set(numbers))`
  function SortedSet(numbers: seq<int>): seq<int> {
    if numbers == [] then [] else InsertSorted(SortedSet(numbers[..|numbers| - 1]), numbers[|numbers| - 1])
  }

  function Members(numbers: seq<int>): set<int> {
    if numbers == [] then {} else Members(numbers[..|numbers| - 1]) + {numbers[|numbers| - 1]}
  }

  function SpanKey(lex: Lexicon, span: Span): (int, int, string) {
    var text := lex.normalize(span.text);
    (span.sequenceStart, span.sequenceEnd, if |text| > 80 then text[..80] else text)
  }

  function SpanKeys(lex: Lexicon, spans: seq<Span>): set<(int, int, string)> {
    if spans == [] then {} else SpanKeys(lex, spans[..|spans| - 1]) + {SpanKey(lex, spans[|spans| - 1])}
  }

  // The first span of every key.
  function DistinctSpans(lex: Lexicon, spans: seq<Span>): seq<Span> {
    if spans == [] then []
    else
      var init, last := DistinctSpans(lex, spans[..|spans| - 1]), spans[|spans| - 1];
      if SpanKey(lex, last) in SpanKeys(lex, spans[..|spans| - 1]) then init else init + [last]
  }

  function MergeEvidence(lex: Lexicon, left: seq<Span>, right: seq<Span>): seq<Span> {
    var all := DistinctSpans(lex, left + right);
    if |all| > 8 then all[..8] else all
  }

  function MinOptional(a: Option<int>, b: Option<int>): Option<int> {
    match (a, b)
    case (Some(x), Some(y)) => Some(if x < y then x else y)
    case (Some(_), None) => a
    case (None, _) => b
  }

  function MaxOptional(a: Option<int>, b: Option<int>): Option<int> {
    match (a, b)
    case (Some(x), Some(y)) => Some(if x > y then x else y)
    case (Some(_), None) => a
    case (None, _) => b
  }

  function PreferRicher(lex: Lexicon, current: string, incoming: string): string {
    if incoming == "" then current
    else if current == "" then incoming
    else if |incoming| >= |current| || !(lex.tokens(incoming) <= lex.tokens(current)) then incoming
    else current
  }

  function AppendHistory(a: Artifact, incoming: Artifact, kind: ResolutionKind, action: Option<ReconcileAction>): Artifact {
    var kept := if |a.history| > 7 then a.history[|a.history| - 7..] else a.history;
    a.(history := kept + [HistoryEntry(incoming.windowId, kind, Or(incoming.content, incoming.title), a.content,
                                       incoming.evidence, action)])
  }

  // ----- the list of artifacts

  function FindById(list: seq<Artifact>, id: string): Option<nat> {
    if list == [] then None
    else
      match FindById(list[..|list| - 1], id)
      case Some(i) => Some(i)
      case None => if list[|list| - 1].id == id then Some(|list| - 1) else None
  }

  lemma {:induction false} FoundById(list: seq<Artifact>, id: string)
    ensures match FindById(list, id)
            case Some(i) => i < |list| && list[i].id == id && forall j :: 0 <= j < i ==> list[j].id != id
            case None => forall j :: 0 <= j < |list| ==> list[j].id != id
  {
    if list != [] {
      FoundById(list[..|list| - 1], id);
    }
  }

  function ReplaceOrAppend(list: seq<Artifact>, a: Artifact): seq<Artifact> {
    FoundById(list, a.id);
    match FindById(list, a.id)
    case Some(i) => list[i := a]
    case None => list + [a]
  }

  // ----- one resolution

  datatype Resolution = Resolution(incoming: Artifact, kind: ResolutionKind, matched: Option<Artifact>, action: ReconcileAction)

  predicate IsModifying(action: ReconcileAction) {
    action.UpdateExisting? || action.CompleteExisting? || action.CancelExisting? || action.SupersedeExisting?
  }

  // `_resolution_from_action`
  function ResolutionFrom(action: ReconcileAction, incoming: Artifact, matched: Option<Artifact>): Resolution {
    if action.CreateNew? || matched.None? then Resolution(incoming, New, None, action)
    else
      match action
      case UpdateExisting => Resolution(incoming, Update, matched, action)
      case CompleteExisting =>
        Resolution(incoming.(status := LifecycleStatus.Completed, operation := OpComplete), Completion, matched, action)
      case CancelExisting =>
        Resolution(incoming.(status := Cancelled, operation := OpCancel), Contradiction, matched, action)
      case SupersedeExisting => Resolution(incoming.(resolution := Contradiction), Contradiction, matched, action)
      case _ => Resolution(incoming.(relatedIds := Unique(incoming.relatedIds + [matched.value.id])), Related, matched, action)
  }

  predicate Cancels(incoming: Artifact) {
    incoming.status.Cancelled? || incoming.status.Rejected? || incoming.operation.OpCancel?
  }

  function MergeSources(lex: Lexicon, a: Artifact, incoming: Artifact): Artifact {
    a.(windowIds := Unique(a.windowIds + incoming.windowIds),
    chunkIds := SortedSet(a.chunkIds + incoming.chunkIds),
    evidence := MergeEvidence(lex, a.evidence, incoming.evidence))
  }

  function Widened(a: Artifact, incoming: Artifact): Artifact {
    a.(startIndex := MinOptional(a.startIndex, incoming.startIndex),
    endIndex := MaxOptional(a.endIndex, incoming.endIndex),
    confidence := if incoming.confidence > a.confidence then incoming.confidence else a.confidence)
  }

  function Updated(lex: Lexicon, a: Artifact, incoming: Artifact): Artifact {
    a.(title := Or(incoming.title, a.title),
    content := PreferRicher(lex, a.content, incoming.content),
    ownerText := Or(incoming.ownerText, a.ownerText),
    ownerUserId := Or(incoming.ownerUserId, a.ownerUserId),
    dueDateText := Or(incoming.dueDateText, a.dueDateText),
    dueDateResolved := Or(incoming.dueDateResolved, a.dueDateResolved),
    dueDateStatus := if incoming.dueDateStatus != "none" then incoming.dueDateStatus else a.dueDateStatus,
    topic := Or(incoming.topic, a.topic),
    semanticHint := Or(a.semanticHint, incoming.semanticHint),
    status := Active,
    resolution := Update,
    needsConfirmation := a.needsConfirmation && incoming.needsConfirmation)
  }

  // What `apply_resolution` writes into the list, and what it returns.
  datatype Applied = Applied(written: Option<Artifact>, returned: Artifact)

  function CancelledBy(lex: Lexicon, matched: Artifact, incoming: Artifact, action: Option<ReconcileAction>): Artifact {
    var noted := AppendHistory(matched, incoming, Contradiction, action);
    MergeSources(lex, noted.(status := Cancelled, operation := OpCancel), incoming)
  }

  function DuplicatedBy(lex: Lexicon, matched: Artifact, incoming: Artifact, action: Option<ReconcileAction>): Artifact {
    Widened(MergeSources(lex, AppendHistory(matched, incoming, Duplicate, action), incoming), incoming)
  }

  function CompletedBy(lex: Lexicon, matched: Artifact, incoming: Artifact, action: Option<ReconcileAction>): Artifact {
    var noted := AppendHistory(matched, incoming, Completion, action);
    MergeSources(lex, noted.(status := LifecycleStatus.Completed, operation := OpComplete), incoming)
  }

  function UpdatedBy(lex: Lexicon, matched: Artifact, incoming: Artifact, action: Option<ReconcileAction>): Artifact {
    var noted := AppendHistory(matched, incoming, Update, action);
    Widened(MergeSources(lex, Updated(lex, noted, incoming), incoming), incoming)
  }

  function SupersededBy(matched: Artifact, incoming: Artifact, action: Option<ReconcileAction>): Artifact {
    AppendHistory(matched, incoming, Contradiction, action).(status := Superseded, supersededBy := incoming.id)
  }

  function RelatedTo(incoming: Artifact, matched: Artifact): Artifact {
    incoming.(relatedIds := Unique(incoming.relatedIds + [matched.id]))
  }

  function Superseding(incoming: Artifact, matched: Artifact): Artifact {
    RelatedTo(incoming, matched)
    .(status := Confirmed, supersedes := matched.id, reason := Or(incoming.reason, Or(incoming.content, incoming.title)))
  }

  function ApplyResolution(lex: Lexicon, r: Resolution): Applied {
    var incoming := r.incoming.(resolution := r.kind);
    if r.kind.New? || r.matched.None? then Applied(None, incoming)
    else
      var matched, action := r.matched.value, Some(r.action);
      if Cancels(incoming) then Applied(None, CancelledBy(lex, matched, incoming, action))
      else
        match r.kind
        case Related => Applied(Some(RelatedTo(matched, incoming)), RelatedTo(incoming, matched).(status := Provisional))
        case Duplicate => Applied(None, DuplicatedBy(lex, matched, incoming, action))
        case Completion => Applied(None, CompletedBy(lex, matched, incoming, action))
        case Contradiction => Applied(Some(SupersededBy(matched, incoming, action)), Superseding(incoming, matched))
        case _ => Applied(None, UpdatedBy(lex, matched, incoming, action))
  }

  // ----- the fold

  // The last decision for an index counts.
  function VerdictFor(verdicts: seq<Verdict>, index: nat): Option<Verdict> {
    if verdicts == [] then None
    else if verdicts[|verdicts| - 1].incomingIndex == index then Some(verdicts[|verdicts| - 1])
    else VerdictFor(verdicts[..|verdicts| - 1], index)
  }

  function Matched(working: seq<Artifact>, verdict: Option<Verdict>): Option<Artifact> {
    if verdict.None? || verdict.value.target == "" then None
    else
      FoundById(working, verdict.value.target);
      match FindById(working, verdict.value.target) case Some(i) => Some(working[i]) case None => None
  }

  function ActionOf(verdict: Option<Verdict>): ReconcileAction {
    if verdict.None? then CreateNew else verdict.value.action
  }

  predicate Skips(working: seq<Artifact>, verdict: Option<Verdict>) {
    IsModifying(ActionOf(verdict)) && Matched(working, verdict).None?
  }

  function Evidenced(lex: Lexicon, incoming: Artifact, verdict: Option<Verdict>): Artifact {
    if verdict.Some? && verdict.value.evidence != [] then
      incoming.(evidence := MergeEvidence(lex, incoming.evidence, verdict.value.evidence))
    else incoming
  }

  function Resolve(lex: Lexicon, working: seq<Artifact>, incoming: Artifact, verdict: Option<Verdict>): Resolution {
    var matched := Matched(working, verdict);
    var action := if ActionOf(verdict).RelatedButDistinct? && matched.None? then CreateNew else ActionOf(verdict);
    ResolutionFrom(action, Evidenced(lex, incoming, verdict), matched)
  }

  function Write(working: seq<Artifact>, applied: Applied): seq<Artifact> {
    ReplaceOrAppend(if applied.written.Some? then ReplaceOrAppend(working, applied.written.value) else working, applied.returned)
  }

  function Reconcile(lex: Lexicon, working: seq<Artifact>, incoming: Artifact, verdict: Option<Verdict>): seq<Artifact> {
    if Skips(working, verdict) then working
    else Write(working, ApplyResolution(lex, Resolve(lex, working, incoming, verdict)))
  }

  function Ledger(lex: Lexicon, existing: seq<Artifact>, incoming: seq<Artifact>, verdicts: seq<Verdict>): seq<Artifact> {
    if incoming == [] then existing
    else
      var n := |incoming| - 1;
      Reconcile(lex, Ledger(lex, existing, incoming[..n], verdicts), incoming[n], VerdictFor(verdicts, n))
  }

  // ----- what one resolution keeps

  lemma {:induction false} InsertedMembers(numbers: seq<int>, x: int)
    ensures Members(InsertSorted(numbers, x)) == Members(numbers) + {x}
  {
    if numbers != [] && numbers[|numbers| - 1] > x {
      InsertedMembers(numbers[..|numbers| - 1], x);
      Snoc(InsertSorted(numbers[..|numbers| - 1], x), numbers[|numbers| - 1]);
    }
  }

  lemma {:induction false} SortedMembers(numbers: seq<int>)
    ensures Members(SortedSet(numbers)) == Members(numbers)
  {
    if numbers != [] {
      SortedMembers(numbers[..|numbers| - 1]);
      InsertedMembers(SortedSet(numbers[..|numbers| - 1]), numbers[|numbers| - 1]);
    }
  }

  lemma {:induction false} MembersConcat(a: seq<int>, b: seq<int>)
    ensures Members(a + b) == Members(a) + Members(b)
  {
    if b == [] {
      EmptyRight(a);
    } else {
      MembersConcat(a, b[..|b| - 1]);
      InitOfConcat(a, b);
    }
  }

  predicate IsAscending(numbers: seq<int>) {
    forall i, j :: 0 <= i < j < |numbers| ==> numbers[i] < numbers[j]
  }

  lemma {:induction false} InsertedAscends(numbers: seq<int>, x: int, limit: int)
    requires IsAscending(numbers) && x < limit && forall i :: 0 <= i < |numbers| ==> numbers[i] < limit
    ensures IsAscending(InsertSorted(numbers, x))
    ensures forall i :: 0 <= i < |InsertSorted(numbers, x)| ==> InsertSorted(numbers, x)[i] < limit
  {
    if numbers != [] && numbers[|numbers| - 1] > x {
      InsertedAscends(numbers[..|numbers| - 1], x, numbers[|numbers| - 1]);
    }
  }

  // The merged sources of an artifact: every number of both, ascending, each once.
  lemma {:induction false} SortedAscends(numbers: seq<int>)
    ensures IsAscending(SortedSet(numbers))
  {
    if numbers != [] {
      var sorted, x := SortedSet(numbers[..|numbers| - 1]), numbers[|numbers| - 1];
      SortedAscends(numbers[..|numbers| - 1]);
      var top := if sorted == [] then x else sorted[|sorted| - 1];
      InsertedAscends(sorted, x, (if top > x then top else x) + 1);
    }
  }

  // The target keeps its identity, its sources and its confidence, and no more
  // than eight entries of history.
  predicate Develops(before: Artifact, after: Artifact) {
    && after.id == before.id
    && Members(before.chunkIds) <= Members(after.chunkIds)
    && after.confidence >= before.confidence
    && (|before.history| <= 8 ==> |after.history| <= 8)
  }

  // An incoming artifact that is added keeps what it brings.
  predicate IsAdded(incoming: Artifact, after: Artifact) {
    after.id == incoming.id && after.chunkIds == incoming.chunkIds && after.history == incoming.history
  }

  lemma SourcesMerge(lex: Lexicon, a: Artifact, incoming: Artifact)
    ensures var merged := MergeSources(lex, a, incoming);
            && Members(merged.chunkIds) == Members(a.chunkIds) + Members(incoming.chunkIds)
            && merged.id == a.id && merged.confidence == a.confidence && merged.history == a.history
  {
    SortedMembers(a.chunkIds + incoming.chunkIds);
    MembersConcat(a.chunkIds, incoming.chunkIds);
  }

  // A target that takes over what an incoming artifact brings.
  predicate Absorbs(matched: Artifact, incoming: Artifact, after: Artifact) {
    Develops(matched, after) && Members(after.chunkIds) == Members(matched.chunkIds) + Members(incoming.chunkIds)
  }

  lemma MergesInto(lex: Lexicon, matched: Artifact, noted: Artifact, incoming: Artifact)
    requires noted.id == matched.id && noted.chunkIds == matched.chunkIds && noted.confidence == matched.confidence
    requires |noted.history| <= 8
    ensures Absorbs(matched, incoming, MergeSources(lex, noted, incoming))
    ensures Absorbs(matched, incoming, Widened(MergeSources(lex, noted, incoming), incoming))
  {
    SourcesMerge(lex, noted, incoming);
  }

  lemma TargetsAbsorb(lex: Lexicon, matched: Artifact, incoming: Artifact, action: Option<ReconcileAction>)
    ensures Absorbs(matched, incoming, CancelledBy(lex, matched, incoming, action))
    ensures Absorbs(matched, incoming, DuplicatedBy(lex, matched, incoming, action))
  {
    var noted := AppendHistory(matched, incoming, Contradiction, action);
    MergesInto(lex, matched, noted.(status := Cancelled, operation := OpCancel), incoming);
    MergesInto(lex, matched, AppendHistory(matched, incoming, Duplicate, action), incoming);
  }

  lemma TargetsAbsorbToo(lex: Lexicon, matched: Artifact, incoming: Artifact, action: Option<ReconcileAction>)
    ensures Absorbs(matched, incoming, CompletedBy(lex, matched, incoming, action))
    ensures Absorbs(matched, incoming, UpdatedBy(lex, matched, incoming, action))
  {
    var noted := AppendHistory(matched, incoming, Completion, action);
    MergesInto(lex, matched, noted.(status := LifecycleStatus.Completed, operation := OpComplete), incoming);
    MergesInto(lex, matched, Updated(lex, AppendHistory(matched, incoming, Update, action), incoming), incoming);
  }

  // Both are kept: the target without new sources, the incoming one as it is.
  predicate Accompanies(matched: Artifact, incoming: Artifact, written: Artifact, added: Artifact) {
    Develops(matched, written) && written.chunkIds == matched.chunkIds && IsAdded(incoming, added)
  }

  lemma TargetsAccompany(matched: Artifact, incoming: Artifact, action: Option<ReconcileAction>)
    ensures Accompanies(matched, incoming, SupersededBy(matched, incoming, action), Superseding(incoming, matched))
    ensures Accompanies(matched, incoming, RelatedTo(matched, incoming), RelatedTo(incoming, matched).(status := Provisional))
  {
  }

  // Without a target the incoming artifact is added; with one, the target
  // absorbs it or both are kept.
  predicate AppliesTo(incoming: Artifact, matched: Option<Artifact>, a: Applied) {
    if a.written.Some? then matched.Some? && Accompanies(matched.value, incoming, a.written.value, a.returned)
    else IsAdded(incoming, a.returned) || (matched.Some? && Absorbs(matched.value, incoming, a.returned))
  }

  lemma ResolutionApplies(lex: Lexicon, r: Resolution)
    ensures AppliesTo(r.incoming.(resolution := r.kind), r.matched, ApplyResolution(lex, r))
  {
    var incoming, action := r.incoming.(resolution := r.kind), Some(r.action);
    if !r.kind.New? && r.matched.Some? {
      var matched := r.matched.value;
      if Cancels(incoming) {
        TargetsAbsorb(lex, matched, incoming, action);
      } else {
        match r.kind
        case Related => TargetsAccompany(matched, incoming, action);
        case Duplicate => TargetsAbsorb(lex, matched, incoming, action);
        case Completion => TargetsAbsorbToo(lex, matched, incoming, action);
        case Contradiction => TargetsAccompany(matched, incoming, action);
        case _ => TargetsAbsorbToo(lex, matched, incoming, action);
      }
    }
  }

  // ----- what one step keeps of the list

  function AllSources(list: seq<Artifact>): set<int> {
    if list == [] then {} else AllSources(list[..|list| - 1]) + Members(list[|list| - 1].chunkIds)
  }

  lemma {:induction false} SourcesWritten(list: seq<Artifact>, i: nat, a: Artifact)
    requires i < |list| && Members(list[i].chunkIds) <= Members(a.chunkIds)
    ensures AllSources(list[i := a]) == AllSources(list) + Members(a.chunkIds)
  {
    var n := |list| - 1;
    if i == n {
      assert list[i := a][..n] == list[..n];
    } else {
      assert list[i := a][..n] == list[..n][i := a];
      SourcesWritten(list[..n], i, a);
    }
  }

  // `at` is the target, if there is one; everything else stays as it is, and at
  // most the incoming artifact is added at the end.
  ghost predicate Extends(before: seq<Artifact>, after: seq<Artifact>, incoming: Artifact, at: Option<nat>) {
    && |before| <= |after| <= |before| + 1
    && (|after| > |before| ==> IsAdded(incoming, after[|before|]))
    && forall i :: 0 <= i < |before| ==> if at == Some(i) then Develops(before[i], after[i]) else after[i] == before[i]
  }

  lemma {:induction false} FindsSame(list: seq<Artifact>, i: nat, a: Artifact, id: string)
    requires i < |list| && a.id == list[i].id
    ensures FindById(list[i := a], id) == FindById(list, id)
  {
    var n := |list| - 1;
    if i == n {
      assert list[i := a][..n] == list[..n];
    } else {
      assert list[i := a][..n] == list[..n][i := a];
      FindsSame(list[..n], i, a, id);
    }
  }

  lemma AddsNew(list: seq<Artifact>, a: Artifact)
    requires FindById(list, a.id).None?
    ensures ReplaceOrAppend(list, a) == list + [a] && AllSources(list + [a]) == AllSources(list) + Members(a.chunkIds)
  {
    Snoc(list, a);
  }

  lemma WritesTarget(list: seq<Artifact>, i: nat, a: Artifact)
    requires FindById(list, a.id) == Some(i) && i < |list|
    ensures ReplaceOrAppend(list, a) == list[i := a]
  {
  }

  lemma Adds(list: seq<Artifact>, incoming: Artifact, a: Artifact, at: Option<nat>)
    requires FindById(list, incoming.id).None? && IsAdded(incoming, a)
    ensures Extends(list, ReplaceOrAppend(list, a), incoming, at)
    ensures AllSources(ReplaceOrAppend(list, a)) == AllSources(list) + Members(incoming.chunkIds)
  {
    AddsNew(list, a);
  }

  lemma SourcesAreThere(list: seq<Artifact>, i: nat)
    requires i < |list|
    ensures Members(list[i].chunkIds) <= AllSources(list)
  {
    SourcesWritten(list, i, list[i]);
    assert list[i := list[i]] == list;
  }

  lemma Absorbing(list: seq<Artifact>, i: nat, incoming: Artifact, a: Artifact)
    requires i < |list| && FindById(list, list[i].id) == Some(i) && Absorbs(list[i], incoming, a)
    ensures Extends(list, ReplaceOrAppend(list, a), incoming, Some(i))
    ensures AllSources(ReplaceOrAppend(list, a)) == AllSources(list) + Members(incoming.chunkIds)
  {
    WritesTarget(list, i, a);
    SourcesWritten(list, i, a);
    SourcesAreThere(list, i);
  }

  lemma KeepsSources(list: seq<Artifact>, i: nat, w: Artifact)
    requires i < |list| && w.chunkIds == list[i].chunkIds
    ensures AllSources(list[i := w]) == AllSources(list)
  {
    SourcesWritten(list, i, w);
    SourcesAreThere(list, i);
  }

  lemma ExtendsBoth(list: seq<Artifact>, i: nat, incoming: Artifact, w: Artifact, a: Artifact)
    requires i < |list| && Accompanies(list[i], incoming, w, a)
    ensures Extends(list, list[i := w] + [a], incoming, Some(i))
  {
  }

  lemma Accompanying(list: seq<Artifact>, i: nat, incoming: Artifact, w: Artifact, a: Artifact)
    requires i < |list| && FindById(list, list[i].id) == Some(i) && FindById(list, incoming.id).None?
    requires Accompanies(list[i], incoming, w, a)
    ensures ReplaceOrAppend(ReplaceOrAppend(list, w), a) == list[i := w] + [a]
    ensures AllSources(list[i := w] + [a]) == AllSources(list) + Members(incoming.chunkIds)
  {
    WritesTarget(list, i, w);
    KeepsSources(list, i, w);
    FindsSame(list, i, w, incoming.id);
    AddsNew(list[i := w], a);
  }

  lemma WriteExtends(list: seq<Artifact>, incoming: Artifact, at: Option<nat>, a: Applied)
    requires FindById(list, incoming.id).None?
    requires at.Some? ==> at.value < |list| && FindById(list, list[at.value].id) == at
    requires AppliesTo(incoming, if at.Some? then Some(list[at.value]) else None, a)
    ensures Extends(list, Write(list, a), incoming, at)
    ensures AllSources(Write(list, a)) == AllSources(list) + Members(incoming.chunkIds)
  {
    if a.written.Some? {
      Accompanying(list, at.value, incoming, a.written.value, a.returned);
      ExtendsBoth(list, at.value, incoming, a.written.value, a.returned);
    } else if IsAdded(incoming, a.returned) {
      Adds(list, incoming, a.returned, at);
    } else {
      Absorbing(list, at.value, incoming, a.returned);
    }
  }

  // The artifact a decision points at, when its action uses it.
  function TargetOf(working: seq<Artifact>, verdict: Option<Verdict>): Option<nat> {
    if verdict.None? || verdict.value.target == "" || verdict.value.action.CreateNew? then None
    else FindById(working, verdict.value.target)
  }

  lemma TargetIsMatched(working: seq<Artifact>, verdict: Option<Verdict>)
    ensures var at := TargetOf(working, verdict);
            && (at.Some? ==> at.value < |working| && FindById(working, working[at.value].id) == at
                             && Matched(working, verdict) == Some(working[at.value]))
            && (at.None? ==> ActionOf(verdict).CreateNew? || Matched(working, verdict).None?)
  {
    if verdict.Some? {
      FoundById(working, verdict.value.target);
    }
  }

  lemma KeepsIncoming(action: ReconcileAction, incoming: Artifact, matched: Option<Artifact>)
    ensures var r := ResolutionFrom(action, incoming, matched);
            && r.incoming.id == incoming.id && r.incoming.chunkIds == incoming.chunkIds && r.incoming.history == incoming.history
            && r.matched == if action.CreateNew? then None else matched
  {
  }

  lemma ResolvesTarget(lex: Lexicon, working: seq<Artifact>, incoming: Artifact, verdict: Option<Verdict>)
    ensures var r, at := Resolve(lex, working, incoming, verdict), TargetOf(working, verdict);
            && r.incoming.id == incoming.id && r.incoming.chunkIds == incoming.chunkIds && r.incoming.history == incoming.history
            && (at.Some? ==> at.value < |working|)
            && r.matched == (if at.Some? then Some(working[at.value]) else None)
  {
    var matched := Matched(working, verdict);
    var action := if ActionOf(verdict).RelatedButDistinct? && matched.None? then CreateNew else ActionOf(verdict);
    TargetIsMatched(working, verdict);
    KeepsIncoming(action, Evidenced(lex, incoming, verdict), matched);
  }

  lemma SameIncoming(incoming: Artifact, other: Artifact, matched: Option<Artifact>, a: Applied)
    requires other.id == incoming.id && other.chunkIds == incoming.chunkIds && other.history == incoming.history
    requires AppliesTo(other, matched, a)
    ensures AppliesTo(incoming, matched, a)
  {
  }

  lemma ReconcileExtends(lex: Lexicon, working: seq<Artifact>, incoming: Artifact, verdict: Option<Verdict>)
    requires FindById(working, incoming.id).None?
    ensures Extends(working, Reconcile(lex, working, incoming, verdict), incoming, TargetOf(working, verdict))
    ensures AllSources(Reconcile(lex, working, incoming, verdict)) ==
            AllSources(working) + if Skips(working, verdict) then {} else Members(incoming.chunkIds)
  {
    if !Skips(working, verdict) {
      var r := Resolve(lex, working, incoming, verdict);
      ResolvesTarget(lex, working, incoming, verdict);
      TargetIsMatched(working, verdict);
      ResolutionApplies(lex, r);
      SameIncoming(incoming, r.incoming.(resolution := r.kind), r.matched, ApplyResolution(lex, r));
      WriteExtends(working, incoming, TargetOf(working, verdict), ApplyResolution(lex, r));
    } else {
      SkipsNothing(working, incoming, verdict);
    }
  }

  lemma SkipsNothing(working: seq<Artifact>, incoming: Artifact, verdict: Option<Verdict>)
    requires Skips(working, verdict)
    ensures Extends(working, working, incoming, TargetOf(working, verdict))
  {
  }

  // ----- which artifacts join the list

  function Ids(list: seq<Artifact>): (r: seq<string>)
    ensures |r| == |list|
  {
    if list == [] then [] else Ids(list[..|list| - 1]) + [list[|list| - 1].id]
  }

  // Whether an incoming artifact becomes one of its own, said of the known
  // identifiers: it does without a target, unless the action needs one, and
  // beside a target that it supersedes or is related to, unless it cancels it.
  predicate Joins(known: seq<string>, incoming: Artifact, verdict: Option<Verdict>) {
    if verdict.None? || verdict.value.action.CreateNew? then true
    else if verdict.value.target == "" || verdict.value.target !in known then verdict.value.action.RelatedButDistinct?
    else (verdict.value.action.RelatedButDistinct? || verdict.value.action.SupersedeExisting?) && !Cancels(incoming)
  }

  // The identifiers that join, in the order of their arrival.
  function Joined(known: seq<string>, incoming: seq<Artifact>, verdicts: seq<Verdict>): seq<string> {
    if incoming == [] then []
    else
      var n := |incoming| - 1;
      var earlier := Joined(known, incoming[..n], verdicts);
      if Joins(known + earlier, incoming[n], VerdictFor(verdicts, n)) then earlier + [incoming[n].id] else earlier
  }

  lemma {:induction false} KnownIsFound(list: seq<Artifact>, id: string)
    ensures id in Ids(list) <==> FindById(list, id).Some?
  {
    if list != [] {
      KnownIsFound(list[..|list| - 1], id);
    }
  }

  lemma {:induction false} IdsWritten(list: seq<Artifact>, i: nat, a: Artifact)
    requires i < |list| && a.id == list[i].id
    ensures Ids(list[i := a]) == Ids(list)
  {
    var n := |list| - 1;
    if i == n {
      assert list[i := a][..n] == list[..n];
    } else {
      assert list[i := a][..n] == list[..n][i := a];
      IdsWritten(list[..n], i, a);
    }
  }

  lemma IdsReplaced(list: seq<Artifact>, a: Artifact)
    ensures Ids(ReplaceOrAppend(list, a)) == if a.id in Ids(list) then Ids(list) else Ids(list) + [a.id]
  {
    KnownIsFound(list, a.id);
    FoundById(list, a.id);
    if FindById(list, a.id).Some? {
      IdsWritten(list, FindById(list, a.id).value, a);
    } else {
      Snoc(list, a);
    }
  }

  predicate StaysItself(r: Resolution) {
    r.kind.New? || r.matched.None? || (!Cancels(r.incoming) && (r.kind.Related? || r.kind.Contradiction?))
  }

  lemma AppliedIds(lex: Lexicon, r: Resolution)
    ensures var a := ApplyResolution(lex, r);
            && (a.written.Some? ==> r.matched.Some? && a.written.value.id == r.matched.value.id)
            && a.returned.id == if StaysItself(r) then r.incoming.id else r.matched.value.id
  {
  }

  lemma JoiningStays(lex: Lexicon, working: seq<Artifact>, incoming: Artifact, verdict: Option<Verdict>)
    requires !Skips(working, verdict)
    ensures StaysItself(Resolve(lex, working, incoming, verdict)) <==> Joins(Ids(working), incoming, verdict)
  {
    if verdict.Some? {
      KnownIsFound(working, verdict.value.target);
    }
  }

  lemma SkippedStaysOut(working: seq<Artifact>, incoming: Artifact, verdict: Option<Verdict>)
    requires Skips(working, verdict)
    ensures !Joins(Ids(working), incoming, verdict)
  {
    KnownIsFound(working, verdict.value.target);
  }

  lemma WriteIds(working: seq<Artifact>, applied: Applied, matched: Option<Artifact>)
    requires matched.Some? ==> matched.value.id in Ids(working)
    requires applied.written.Some? ==> matched.Some? && applied.written.value.id == matched.value.id
    ensures Ids(Write(working, applied)) ==
            if applied.returned.id in Ids(working) then Ids(working) else Ids(working) + [applied.returned.id]
  {
    if applied.written.Some? {
      IdsReplaced(working, applied.written.value);
      IdsReplaced(ReplaceOrAppend(working, applied.written.value), applied.returned);
    } else {
      IdsReplaced(working, applied.returned);
    }
  }

  // One decision adds the incoming identifier exactly when it joins.
  lemma ReconcileJoins(lex: Lexicon, working: seq<Artifact>, incoming: Artifact, verdict: Option<Verdict>)
    requires FindById(working, incoming.id).None?
    ensures Ids(Reconcile(lex, working, incoming, verdict)) ==
            Ids(working) + if Joins(Ids(working), incoming, verdict) then [incoming.id] else []
  {
    EmptyRight(Ids(working));
    if Skips(working, verdict) {
      SkippedStaysOut(working, incoming, verdict);
    } else {
      var r := Resolve(lex, working, incoming, verdict);
      ResolvesTarget(lex, working, incoming, verdict);
      JoiningStays(lex, working, incoming, verdict);
      AppliedIds(lex, r);
      KnownIsFound(working, incoming.id);
      if r.matched.Some? {
        var at := TargetOf(working, verdict).value;
        TargetIsMatched(working, verdict);
        KnownIsFound(working, working[at].id);
      }
      WriteIds(working, ApplyResolution(lex, r), r.matched);
    }
  }

  // ----- the whole fold

  // New identifiers: distinct, and none of an existing artifact.
  ghost predicate AreFresh(existing: seq<Artifact>, incoming: seq<Artifact>) {
    && (forall i, j :: 0 <= i < |existing| && 0 <= j < |incoming| ==> existing[i].id != incoming[j].id)
    && forall i, j :: 0 <= i < j < |incoming| ==> incoming[i].id != incoming[j].id
  }

  // Every artifact of the result is an existing one at its old position, or an incoming one.
  ghost predicate Originates(existing: seq<Artifact>, incoming: seq<Artifact>, result: seq<Artifact>) {
    && |existing| <= |result|
    && (forall i :: 0 <= i < |existing| ==> result[i].id == existing[i].id)
    && forall j :: |existing| <= j < |result| ==> exists k :: 0 <= k < |incoming| && result[j].id == incoming[k].id
  }

  // The targets the decisions name for the incoming artifacts.
  function Targets(verdicts: seq<Verdict>, count: nat): set<string> {
    if count == 0 then {}
    else
      var verdict := VerdictFor(verdicts, count - 1);
      if verdict.None? || verdict.value.action.CreateNew? then Targets(verdicts, count - 1)
      else Targets(verdicts, count - 1) + {verdict.value.target}
  }

  // The sources of the incoming artifacts that are not skipped.
  function KeptSources(lex: Lexicon, existing: seq<Artifact>, incoming: seq<Artifact>, verdicts: seq<Verdict>): set<int> {
    if incoming == [] then {}
    else
      var n := |incoming| - 1;
      var kept := KeptSources(lex, existing, incoming[..n], verdicts);
      if Skips(Ledger(lex, existing, incoming[..n], verdicts), VerdictFor(verdicts, n)) then kept
      else kept + Members(incoming[n].chunkIds)
  }

  lemma NextIsFresh(existing: seq<Artifact>, incoming: seq<Artifact>, result: seq<Artifact>)
    requires incoming != [] && AreFresh(existing, incoming) && Originates(existing, incoming[..|incoming| - 1], result)
    ensures FindById(result, incoming[|incoming| - 1].id).None?
    ensures AreFresh(existing, incoming[..|incoming| - 1])
  {
    var n := |incoming| - 1;
    FoundById(result, incoming[n].id);
    forall j | 0 <= j < |result|
      ensures result[j].id != incoming[n].id
    {
      if j < |existing| {
        assert result[j].id == existing[j].id;
      } else {
        var k :| 0 <= k < |incoming[..n]| && result[j].id == incoming[..n][k].id;
        assert incoming[k].id != incoming[n].id;
      }
    }
  }

  lemma OriginatesNext(existing: seq<Artifact>, incoming: seq<Artifact>, before: seq<Artifact>, after: seq<Artifact>, at: Option<nat>)
    requires incoming != [] && Originates(existing, incoming[..|incoming| - 1], before)
    requires Extends(before, after, incoming[|incoming| - 1], at)
    ensures Originates(existing, incoming, after)
  {
    var n := |incoming| - 1;
    forall j | |existing| <= j < |after|
      ensures exists k :: 0 <= k < |incoming| && after[j].id == incoming[k].id
    {
      if j < |before| {
        var k :| 0 <= k < |incoming[..n]| && before[j].id == incoming[..n][k].id;
        assert incoming[k].id == after[j].id;
      } else {
        assert after[j].id == incoming[n].id;
      }
    }
  }

  // No artifact is lost or moved: the existing ones keep their places, and exactly
  // the incoming ones that join follow, once each and in order.
  lemma {:induction false} LedgerOriginates(lex: Lexicon, existing: seq<Artifact>, incoming: seq<Artifact>, verdicts: seq<Verdict>)
    requires AreFresh(existing, incoming)
    ensures Originates(existing, incoming, Ledger(lex, existing, incoming, verdicts))
    ensures Ids(Ledger(lex, existing, incoming, verdicts)) == Ids(existing) + Joined(Ids(existing), incoming, verdicts)
  {
    if incoming == [] {
      EmptyRight(Ids(existing));
    } else {
      var n := |incoming| - 1;
      var before := Ledger(lex, existing, incoming[..n], verdicts);
      assert AreFresh(existing, incoming[..n]);
      LedgerOriginates(lex, existing, incoming[..n], verdicts);
      NextIsFresh(existing, incoming, before);
      ReconcileExtends(lex, before, incoming[n], VerdictFor(verdicts, n));
      OriginatesNext(existing, incoming, before, Ledger(lex, existing, incoming, verdicts), TargetOf(before, VerdictFor(verdicts, n)));
      ReconcileJoins(lex, before, incoming[n], VerdictFor(verdicts, n));
      Assoc(Ids(existing), Joined(Ids(existing), incoming[..n], verdicts), [incoming[n].id]);
      EmptyRight(Ids(before));
    }
  }

  // What one decision does, at any point of the fold.
  lemma StepOfLedger(lex: Lexicon, existing: seq<Artifact>, incoming: seq<Artifact>, verdicts: seq<Verdict>)
    requires incoming != [] && AreFresh(existing, incoming)
    ensures var n := |incoming| - 1;
            var before, after := Ledger(lex, existing, incoming[..n], verdicts), Ledger(lex, existing, incoming, verdicts);
            && AreFresh(existing, incoming[..n]) && |existing| <= |before|
            && Extends(before, after, incoming[n], TargetOf(before, VerdictFor(verdicts, n)))
            && AllSources(after) ==
               AllSources(before) + if Skips(before, VerdictFor(verdicts, n)) then {} else Members(incoming[n].chunkIds)
  {
    var n := |incoming| - 1;
    var before := Ledger(lex, existing, incoming[..n], verdicts);
    assert AreFresh(existing, incoming[..n]);
    LedgerOriginates(lex, existing, incoming[..n], verdicts);
    NextIsFresh(existing, incoming, before);
    ReconcileExtends(lex, before, incoming[n], VerdictFor(verdicts, n));
  }

  // No source is lost: the result cites what the existing artifacts and the
  // incoming ones that are not skipped cite, and nothing else.
  lemma {:induction false} SourcesAreConserved(lex: Lexicon, existing: seq<Artifact>, incoming: seq<Artifact>, verdicts: seq<Verdict>)
    requires AreFresh(existing, incoming)
    ensures AllSources(Ledger(lex, existing, incoming, verdicts)) ==
            AllSources(existing) + KeptSources(lex, existing, incoming, verdicts)
  {
    if incoming != [] {
      StepOfLedger(lex, existing, incoming, verdicts);
      SourcesAreConserved(lex, existing, incoming[..|incoming| - 1], verdicts);
    }
  }

  // An existing artifact develops, and does not change at all unless a decision names it.
  lemma {:induction false} ExistingDevelop(lex: Lexicon, existing: seq<Artifact>, incoming: seq<Artifact>, verdicts: seq<Verdict>,
                                           i: nat)
    requires AreFresh(existing, incoming) && i < |existing|
    ensures i < |Ledger(lex, existing, incoming, verdicts)|
    ensures Develops(existing[i], Ledger(lex, existing, incoming, verdicts)[i])
    ensures existing[i].id !in Targets(verdicts, |incoming|) ==> Ledger(lex, existing, incoming, verdicts)[i] == existing[i]
  {
    if incoming != [] {
      var n := |incoming| - 1;
      var before := Ledger(lex, existing, incoming[..n], verdicts);
      StepOfLedger(lex, existing, incoming, verdicts);
      ExistingDevelop(lex, existing, incoming[..n], verdicts, i);
      if TargetOf(before, VerdictFor(verdicts, n)) == Some(i) {
        TargetIsNamed(before, verdicts, n, i);
      }
    }
  }

  lemma TargetIsNamed(working: seq<Artifact>, verdicts: seq<Verdict>, n: nat, i: nat)
    requires i < |working| && TargetOf(working, VerdictFor(verdicts, n)) == Some(i)
    ensures working[i].id in Targets(verdicts, n + 1)
  {
    FoundById(working, VerdictFor(verdicts, n).value.target);
  }

  // ----- evidence

  lemma {:induction false} DistinctKeys(lex: Lexicon, spans: seq<Span>)
    ensures SpanKeys(lex, DistinctSpans(lex, spans)) == SpanKeys(lex, spans)
    ensures |SpanKeys(lex, spans)| == |DistinctSpans(lex, spans)|
  {
    if spans != [] {
      var init, last := spans[..|spans| - 1], spans[|spans| - 1];
      DistinctKeys(lex, init);
      Snoc(DistinctSpans(lex, init), last);
    }
  }

  lemma {:induction false} KeysAtMost(lex: Lexicon, spans: seq<Span>)
    ensures |SpanKeys(lex, spans)| <= |spans|
  {
    if spans != [] {
      KeysAtMost(lex, spans[..|spans| - 1]);
    }
  }

  // Merging keeps every distinct span exactly when there are at most eight.
  lemma EvidenceIsKept(lex: Lexicon, left: seq<Span>, right: seq<Span>)
    ensures SpanKeys(lex, MergeEvidence(lex, left, right)) == SpanKeys(lex, left + right) <==> |SpanKeys(lex, left + right)| <= 8
  {
    DistinctKeys(lex, left + right);
    KeysAtMost(lex, MergeEvidence(lex, left, right));
  }

  // Nine spans with different numbers lose one, whatever they say.
  lemma NineSpansLoseOne(lex: Lexicon, left: seq<Span>, right: seq<Span>)
    requires |left + right| == 9 && forall i :: 0 <= i < 9 ==> (left + right)[i].sequenceStart == i
    ensures SpanKeys(lex, MergeEvidence(lex, left, right)) != SpanKeys(lex, left + right)
    ensures |MergeEvidence(lex, left, right)| == 8
  {
    AllDistinct(lex, left + right);
    DistinctKeys(lex, left + right);
    EvidenceIsKept(lex, left, right);
  }

  lemma {:induction false} AllDistinct(lex: Lexicon, spans: seq<Span>)
    requires forall i :: 0 <= i < |spans| ==> spans[i].sequenceStart == i
    ensures |SpanKeys(lex, spans)| == |spans|
    ensures forall key :: key in SpanKeys(lex, spans) ==> key.0 < |spans|
  {
    if spans != [] {
      AllDistinct(lex, spans[..|spans| - 1]);
    }
  }

  method MergedEvidence(lex: Lexicon, left: seq<Span>, right: seq<Span>) returns (merged: seq<Span>)
    ensures merged == MergeEvidence(lex, left, right)
  {
    var all, seen: set<(int, int, string)> := left + right, {};
    merged := [];
    for i := 0 to |all|
      invariant seen == SpanKeys(lex, all[..i]) && merged == DistinctSpans(lex, all[..i])
    {
      TakeSnoc(all, i);
      var key := SpanKey(lex, all[i]);
      if key !in seen {
        seen := seen + {key};
        merged := merged + [all[i]];
      }
    }
    TakeAll(all);
    merged := if |merged| > 8 then merged[..8] else merged;
  }

  // ----- the fold, as the program runs it

  class WorkingList {
    const lex: Lexicon
    var items: seq<Artifact>

    constructor (lex: Lexicon, existing: seq<Artifact>)
      ensures this.lex == lex && items == existing
    {
      this.lex, items := lex, existing;
    }

    method FindIt(id: string) returns (index: Option<nat>)
      ensures index == FindById(items, id)
    {
      for i := 0 to |items|
        invariant FindById(items[..i], id) == None
      {
        TakeSnoc(items, i);
        if items[i].id == id {
          FoundInPrefix(items, i, id);
          return Some(i);
        }
      }
      TakeAll(items);
      index := None;
    }

    method PutBack(a: Artifact)
      modifies this
      ensures items == ReplaceOrAppend(old(items), a)
    {
      var index := FindIt(a.id);
      FoundById(items, a.id);
      if index.Some? {
        items := items[index.value := a];
      } else {
        items := items + [a];
      }
    }

    // `apply_resolution` also writes the target when both artifacts are kept.
    method Resolves(r: Resolution) returns (a: Artifact)
      modifies this
      ensures var applied := ApplyResolution(lex, r);
              && a == applied.returned
              && items == if applied.written.Some? then ReplaceOrAppend(old(items), applied.written.value) else old(items)
    {
      var incoming := r.incoming.(resolution := r.kind);
      if r.kind.New? || r.matched.None? {
        return incoming;
      }
      var matched, action := r.matched.value, Some(r.action);
      if incoming.status.Cancelled? || incoming.status.Rejected? || incoming.operation.OpCancel? {
        return CancelledBy(lex, matched, incoming, action);
      }
      match r.kind {
        case Related =>
          PutBack(RelatedTo(matched, incoming));
          a := RelatedTo(incoming, matched).(status := Provisional);
        case Duplicate => a := DuplicatedBy(lex, matched, incoming, action);
        case Completion => a := CompletedBy(lex, matched, incoming, action);
        case Contradiction =>
          PutBack(SupersededBy(matched, incoming, action));
          a := Superseding(incoming, matched);
        case _ => a := UpdatedBy(lex, matched, incoming, action);
      }
    }

    method TakeIn(item: Artifact, verdict: Option<Verdict>)
      modifies this
      ensures items == Reconcile(lex, old(items), item, verdict)
    {
      var action, matched := ActionOf(verdict), None;
      if verdict.Some? && verdict.value.target != "" {
        var index := FindIt(verdict.value.target);
        FoundById(items, verdict.value.target);
        if index.Some? {
          matched := Some(items[index.value]);
        }
      }
      assert matched == Matched(items, verdict);
      if IsModifying(action) && matched.None? {
        return;
      }
      if action.RelatedButDistinct? && matched.None? {
        action := CreateNew;
      }
      var incoming := item;
      if verdict.Some? && verdict.value.evidence != [] {
        var evidence := MergedEvidence(lex, item.evidence, verdict.value.evidence);
        incoming := item.(evidence := evidence);
      }
      assert ResolutionFrom(action, incoming, matched) == Resolve(lex, items, item, verdict);
      var applied := Resolves(ResolutionFrom(action, incoming, matched));
      PutBack(applied);
    }
  }

  lemma FoundInPrefix(list: seq<Artifact>, i: nat, id: string)
    requires i < |list| && FindById(list[..i], id) == None && list[i].id == id
    ensures FindById(list, id) == Some(i)
  {
    FoundById(list[..i], id);
    FoundById(list, id);
    assert forall j :: 0 <= j < i ==> list[j] == list[..i][j];
  }

  method ByIndex(verdicts: seq<Verdict>) returns (table: map<nat, Verdict>)
    ensures forall k :: (k in table <==> VerdictFor(verdicts, k).Some?) && (k in table ==> VerdictFor(verdicts, k) == Some(table[k]))
  {
    table := map[];
    for i := 0 to |verdicts|
      invariant forall k :: (k in table <==> VerdictFor(verdicts[..i], k).Some?)
                            && (k in table ==> VerdictFor(verdicts[..i], k) == Some(table[k]))
    {
      TakeSnoc(verdicts, i);
      table := table[verdicts[i].incomingIndex := verdicts[i]];
    }
    TakeAll(verdicts);
  }

  method ApplyLlmDecisions(lex: Lexicon, existing: seq<Artifact>, incoming: seq<Artifact>, verdicts: seq<Verdict>)
    returns (result: seq<Artifact>)
    ensures result == Ledger(lex, existing, incoming, verdicts)
  {
    var table := ByIndex(verdicts);
    var working := new WorkingList(lex, existing);
    for i := 0 to |incoming|
      invariant working.lex == lex && working.items == Ledger(lex, existing, incoming[..i], verdicts)
    {
      TakeSnoc(incoming, i);
      var verdict := if i in table then Some(table[i]) else None;
      working.TakeIn(incoming[i], verdict);
    }
    TakeAll(incoming);
    result := working.items;
  }
}

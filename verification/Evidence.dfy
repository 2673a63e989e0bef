// Grounding every unit a model returns in the lines of the transcript
// (services/conversation/extraction_contract.py). The units are arbitrary.

module Evidence {
  import opened Seqs
  import opened Text
  import opened Transcript
  import opened Artifacts

  // `fold` joins the words of the case-folded text; `overlaps` compares the
  // content words of a folded line and a folded citation.
  datatype Matcher = Matcher(fold: string -> string, overlaps: (string, string) -> bool)

  datatype EvidenceOutcome = CoreInvalid | OptionalInvalid | Valid

  datatype Quality = Quality(outcome: Option<EvidenceOutcome>, validatedIds: seq<int>)

  datatype Unit = Unit(
    key: string,
    kind: string,
    meaning: string,
    state: string,
    ownerText: string,
    dueDateText: string,
    evidence: seq<Span>,
    evidenceIds: seq<int>,
    quality: Quality
  )

  // ----- sets of numbers in ascending order

  ghost predicate IsLeast(s: set<int>, m: int) {
    m in s && forall k :: k in s ==> m <= k
  }

  lemma {:induction false} LeastExists(s: set<int>)
    requires s != {}
    ensures exists m :: IsLeast(s, m)
  {
    assert exists m :: m in s by {
      if forall m :: m !in s {
        assert false;
      }
    }
    var m :| m in s;
    if s - {m} == {} {
      assert forall k :: k in s ==> k == m || k in s - {m};
      assert IsLeast(s, m);
    } else {
      LeastExists(s - {m});
      var k :| IsLeast(s - {m}, k);
      assert forall j :: j in s ==> j == m || j in s - {m};
      assert IsLeast(s, if k < m then k else m);
    }
  }

  function Least(s: set<int>): (m: int)
    requires s != {}
    ensures IsLeast(s, m)
  {
    LeastExists(s);
    var m :| m in s && forall k :: k in s ==> m <= k;
    m
  }

  // `sorted(s)`
  function InOrder(s: set<int>): seq<int> {
    if s == {} then [] else [Least(s)] + InOrder(s - {Least(s)})
  }

  predicate Ascends(numbers: seq<int>) {
    forall i, j :: 0 <= i < j < |numbers| ==> numbers[i] < numbers[j]
  }

  lemma {:induction false} InOrderAscends(s: set<int>)
    ensures Ascends(InOrder(s)) && forall n :: n in InOrder(s) <==> n in s
  {
    if s != {} {
      var least, rest := Least(s), InOrder(s - {Least(s)});
      InOrderAscends(s - {least});
      assert forall n :: n in s ==> n == least || n in s - {least};
      assert forall i :: 0 <= i < |rest| ==> rest[i] in s - {least};
    }
  }

  function IdSet(numbers: seq<int>): set<int> {
    if numbers == [] then {} else IdSet(numbers[..|numbers| - 1]) + {numbers[|numbers| - 1]}
  }

  lemma {:induction false} IdSetIs(numbers: seq<int>, n: int)
    ensures n in IdSet(numbers) <==> n in numbers
  {
    if numbers != [] {
      IdSetIs(numbers[..|numbers| - 1], n);
      Whole(numbers);
    }
  }

  // ----- what a unit cites

  predicate SupportedByText(m: Matcher, line: string, cited: string) {
    var folded := m.fold(line);
    folded != "" && (Contains(folded, cited) || (|folded| >= 12 && Contains(cited, folded)) || m.overlaps(folded, cited))
  }

  // `_sequences_supported_by_text`
  function Supporting(m: Matcher, cited: string, lines: map<int, string>): set<int> {
    if cited == "" then {} else set n | n in lines && SupportedByText(m, lines[n], cited)
  }

  // `_intersected_span_sequences`: the lines between the two numbers of a span.
  function Intersected(span: Span, lines: map<int, string>): set<int> {
    var low := if span.sequenceStart > span.sequenceEnd then span.sequenceEnd else span.sequenceStart;
    var high := if span.sequenceStart > span.sequenceEnd then span.sequenceStart else span.sequenceEnd;
    if (forall n :: n in lines ==> low > n) || (forall n :: n in lines ==> high < n) then {}
    else set n | n in lines && low <= n <= high
  }

  function SpanIds(m: Matcher, span: Span, lines: map<int, string>): set<int> {
    var ids := Intersected(span, lines);
    var cited := m.fold(span.text);
    if ids != {} then ids
    else if cited != "" && !("sequence:" <= cited) then Supporting(m, cited, lines)
    else {}
  }

  function AllSpanIds(m: Matcher, spans: seq<Span>, lines: map<int, string>): set<int> {
    if spans == [] then {}
    else AllSpanIds(m, spans[..|spans| - 1], lines) + SpanIds(m, spans[|spans| - 1], lines)
  }

  function Known(numbers: set<int>, lines: map<int, string>): set<int> {
    set n | n in numbers && n in lines
  }

  // `_cited_sequence_ids`
  function CitedSet(m: Matcher, unit: Unit, lines: map<int, string>): set<int> {
    var ids := Known(IdSet(unit.evidenceIds), lines) + AllSpanIds(m, unit.evidence, lines);
    Known(if ids == {} then Supporting(m, m.fold(unit.meaning), lines) else ids, lines)
  }

  // ----- checking one unit

  // One span for every cited line that is not blank.
  function Quoted(ids: seq<int>, lines: map<int, string>): seq<Span>
    requires forall i :: 0 <= i < |ids| ==> ids[i] in lines
  {
    if ids == [] then []
    else
      var n := ids[|ids| - 1];
      if Strip(lines[n]) == "" then Quoted(ids[..|ids| - 1], lines)
      else Quoted(ids[..|ids| - 1], lines) + [Span(n, n, Strip(lines[n]))]
  }

  function Joined(ids: seq<int>, lines: map<int, string>): string
    requires forall i :: 0 <= i < |ids| ==> ids[i] in lines
  {
    if ids == [] then ""
    else if |ids| == 1 then lines[ids[0]]
    else Joined(ids[..|ids| - 1], lines) + " " + lines[ids[|ids| - 1]]
  }

  // An owner or a date that the cited lines do not contain is dropped.
  function Backed(m: Matcher, text: string, folded: string): string {
    if text != "" && !Contains(folded, m.fold(text)) then "" else text
  }

  function CitedIds(m: Matcher, unit: Unit, lines: map<int, string>): (ids: seq<int>)
    ensures forall i :: 0 <= i < |ids| ==> ids[i] in lines
  {
    var ids := InOrder(CitedSet(m, unit, lines));
    InOrderAscends(CitedSet(m, unit, lines));
    assert forall i :: 0 <= i < |ids| ==> ids[i] in CitedSet(m, unit, lines);
    ids
  }

  // `_validate_unit_core_evidence`, with what it writes into the unit
  function Validated(m: Matcher, unit: Unit, lines: map<int, string>): (Unit, EvidenceOutcome) {
    var ids := CitedIds(m, unit, lines);
    if ids == [] || Strip(unit.meaning) == "" then (unit, CoreInvalid)
    else
      var grounded := unit.(evidenceIds := ids, evidence := Quoted(ids, lines));
      if grounded.evidence == [] then (grounded, CoreInvalid)
      else
        var folded := m.fold(Joined(ids, lines));
        var owner, due := Backed(m, unit.ownerText, folded), Backed(m, unit.dueDateText, folded);
        (grounded.(ownerText := owner, dueDateText := due),
         if owner == unit.ownerText && due == unit.dueDateText then Valid else OptionalInvalid)
  }

  function Hydrated(m: Matcher, unit: Unit, lines: map<int, string>): Unit {
    var checked := Validated(m, unit, lines);
    checked.0.(quality := Quality(Some(checked.1), checked.0.evidenceIds))
  }

  predicate IsGrounded(m: Matcher, unit: Unit, lines: map<int, string>) {
    !Validated(m, unit, lines).1.CoreInvalid?
  }

  // ----- all units

  function Kept(m: Matcher, units: seq<Unit>, lines: map<int, string>): seq<Unit> {
    if units == [] then []
    else if IsGrounded(m, units[|units| - 1], lines) then
      Kept(m, units[..|units| - 1], lines) + [Hydrated(m, units[|units| - 1], lines)]
    else Kept(m, units[..|units| - 1], lines)
  }

  method HydrateAndValidate(m: Matcher, units: seq<Unit>, transcript: string) returns (kept: seq<Unit>, rejected: nat)
    ensures kept == Kept(m, units, SequenceMap(transcript))
    ensures |kept| + rejected == |units|
  {
    var lines := ReadSequenceMap(transcript);
    kept, rejected := [], 0;
    for i := 0 to |units|
      invariant kept == Kept(m, units[..i], lines) && |kept| + rejected == i
    {
      TakeSnoc(units, i);
      var checked := Validated(m, units[i], lines);
      var unit := checked.0.(quality := Quality(Some(checked.1), checked.0.evidenceIds));
      if checked.1.CoreInvalid? {
        rejected := rejected + 1;
        continue;
      }
      kept := kept + [unit];
    }
    TakeAll(units);
  }

  // What a kept unit cites: lines of the transcript, ascending, each quoted
  // unless it is blank, and at least one quoted.
  ghost predicate CitesLines(unit: Unit, lines: map<int, string>) {
    && unit.evidenceIds != [] && Ascends(unit.evidenceIds)
    && (forall n :: n in unit.evidenceIds ==> n in lines)
    && unit.evidence != []
    && (forall i :: 0 <= i < |unit.evidence| ==> QuotesLine(unit.evidence[i], unit.evidenceIds, lines))
    && forall n :: n in unit.evidenceIds && Strip(lines[n]) != "" ==> Span(n, n, Strip(lines[n])) in unit.evidence
  }

  predicate QuotesLine(span: Span, ids: seq<int>, lines: map<int, string>) {
    var n := span.sequenceStart;
    span.sequenceEnd == n && n in ids && n in lines && span.text == Strip(lines[n]) && span.text != ""
  }

  lemma {:induction false} QuotedLines(ids: seq<int>, lines: map<int, string>)
    requires forall i :: 0 <= i < |ids| ==> ids[i] in lines
    ensures forall i :: 0 <= i < |Quoted(ids, lines)| ==> QuotesLine(Quoted(ids, lines)[i], ids, lines)
    ensures forall n :: n in ids && Strip(lines[n]) != "" ==> Span(n, n, Strip(lines[n])) in Quoted(ids, lines)
  {
    if ids != [] {
      QuotedLines(ids[..|ids| - 1], lines);
      Whole(ids);
    }
  }

  lemma GroundedCites(m: Matcher, unit: Unit, lines: map<int, string>)
    requires IsGrounded(m, unit, lines)
    ensures CitesLines(Hydrated(m, unit, lines), lines)
    ensures Strip(Hydrated(m, unit, lines).meaning) != "" && Hydrated(m, unit, lines).meaning == unit.meaning
  {
    InOrderAscends(CitedSet(m, unit, lines));
    QuotedLines(CitedIds(m, unit, lines), lines);
  }

  lemma {:induction false} KeptCite(m: Matcher, units: seq<Unit>, lines: map<int, string>, i: nat)
    requires i < |Kept(m, units, lines)|
    ensures CitesLines(Kept(m, units, lines)[i], lines)
  {
    var n := |units| - 1;
    if i < |Kept(m, units[..n], lines)| {
      KeptCite(m, units[..n], lines, i);
    } else {
      GroundedCites(m, units[n], lines);
    }
  }

  // Where the kept units stand among the given ones.
  function Positions(m: Matcher, units: seq<Unit>, lines: map<int, string>): seq<nat> {
    if units == [] then []
    else if IsGrounded(m, units[|units| - 1], lines) then Positions(m, units[..|units| - 1], lines) + [|units| - 1]
    else Positions(m, units[..|units| - 1], lines)
  }

  // The kept units are the grounded ones, in their order, each rewritten to
  // cite the transcript.
  lemma {:induction false} KeptAreSelected(m: Matcher, units: seq<Unit>, lines: map<int, string>, i: nat)
    requires i < |Kept(m, units, lines)|
    ensures |Positions(m, units, lines)| == |Kept(m, units, lines)|
    ensures var k := Positions(m, units, lines)[i];
            k < |units| && IsGrounded(m, units[k], lines) && Kept(m, units, lines)[i] == Hydrated(m, units[k], lines)
  {
    var n := |units| - 1;
    PositionCount(m, units[..n], lines);
    if i < |Kept(m, units[..n], lines)| {
      KeptAreSelected(m, units[..n], lines, i);
    }
  }

  lemma {:induction false} PositionCount(m: Matcher, units: seq<Unit>, lines: map<int, string>)
    ensures |Positions(m, units, lines)| == |Kept(m, units, lines)|
  {
    if units != [] {
      PositionCount(m, units[..|units| - 1], lines);
    }
  }

  predicate Rises(at: seq<nat>, limit: nat) {
    && (forall i, j :: 0 <= i < j < |at| ==> at[i] < at[j])
    && forall i :: 0 <= i < |at| ==> at[i] < limit
  }

  lemma {:induction false} PositionsRise(m: Matcher, units: seq<Unit>, lines: map<int, string>)
    ensures Rises(Positions(m, units, lines), |units|)
  {
    if units != [] {
      PositionsRise(m, units[..|units| - 1], lines);
    }
  }

  lemma RisesBelow(at: seq<nat>, n: nat)
    requires Rises(at, n)
    ensures n !in at
  {
  }

  lemma InSnoc(at: seq<nat>, n: nat, k: nat)
    ensures k in at + [n] <==> k in at || k == n
  {
  }

  // A unit is kept exactly when it is grounded.
  lemma {:induction false} PositionOf(m: Matcher, units: seq<Unit>, lines: map<int, string>, k: nat)
    requires k < |units|
    ensures k in Positions(m, units, lines) <==> IsGrounded(m, units[k], lines)
  {
    var n := |units| - 1;
    PositionsRise(m, units[..n], lines);
    RisesBelow(Positions(m, units[..n], lines), n);
    InSnoc(Positions(m, units[..n], lines), n, k);
    if k < n {
      PositionOf(m, units[..n], lines, k);
    }
  }

  // ----- a second pass

  predicate SameButQuality(a: Unit, b: Unit) {
    a.(quality := b.quality) == b
  }

  lemma {:induction false} IdsOfOrder(s: set<int>)
    ensures IdSet(InOrder(s)) == s
  {
    InOrderAscends(s);
    forall n: int
      ensures n in IdSet(InOrder(s)) <==> n in s
    {
      IdSetIs(InOrder(s), n);
    }
  }

  lemma QuoteCitesItsLine(m: Matcher, span: Span, lines: map<int, string>)
    requires span.sequenceEnd == span.sequenceStart && span.sequenceStart in lines
    ensures SpanIds(m, span, lines) == {span.sequenceStart}
  {
    assert span.sequenceStart in Intersected(span, lines);
  }

  predicate QuotesAmong(span: Span, s: set<int>, lines: map<int, string>) {
    span.sequenceEnd == span.sequenceStart && span.sequenceStart in lines && span.sequenceStart in s
  }

  lemma {:induction false} QuotesCiteTheirLines(m: Matcher, spans: seq<Span>, s: set<int>, lines: map<int, string>)
    requires forall i :: 0 <= i < |spans| ==> QuotesAmong(spans[i], s, lines)
    ensures AllSpanIds(m, spans, lines) <= s
  {
    if spans != [] {
      QuotesCiteTheirLines(m, spans[..|spans| - 1], s, lines);
      QuoteCitesItsLine(m, spans[|spans| - 1], lines);
    }
  }

  lemma KnownIds(m: Matcher, unit: Unit, lines: map<int, string>)
    ensures Known(CitedSet(m, unit, lines), lines) == CitedSet(m, unit, lines)
  {
  }

  // A unit that names known lines, and whose spans name no others, cites those lines.
  lemma CitesExactly(m: Matcher, unit: Unit, ids: set<int>, lines: map<int, string>)
    requires ids != {} && Known(ids, lines) == ids
    requires IdSet(unit.evidenceIds) == ids && AllSpanIds(m, unit.evidence, lines) <= ids
    ensures CitedSet(m, unit, lines) == ids
  {
    assert ids + AllSpanIds(m, unit.evidence, lines) == ids;
  }

  lemma GroundedNames(m: Matcher, unit: Unit, lines: map<int, string>)
    requires IsGrounded(m, unit, lines)
    ensures var once, ids := Hydrated(m, unit, lines), CitedIds(m, unit, lines);
            && once.evidenceIds == ids && once.evidence == Quoted(ids, lines) && ids == InOrder(CitedSet(m, unit, lines)) && ids != []
  {
  }

  lemma QuotedCiteWithin(m: Matcher, s: set<int>, lines: map<int, string>)
    requires forall i :: 0 <= i < |InOrder(s)| ==> InOrder(s)[i] in lines
    ensures AllSpanIds(m, Quoted(InOrder(s), lines), lines) <= s
  {
    var spans := Quoted(InOrder(s), lines);
    InOrderAscends(s);
    QuotedLines(InOrder(s), lines);
    forall i | 0 <= i < |spans|
      ensures QuotesAmong(spans[i], s, lines)
    {
      assert QuotesLine(spans[i], InOrder(s), lines);
    }
    QuotesCiteTheirLines(m, spans, s, lines);
  }

  // Checking a grounded unit again cites the same lines.
  lemma CitesAgain(m: Matcher, unit: Unit, lines: map<int, string>)
    requires IsGrounded(m, unit, lines)
    ensures CitedSet(m, Hydrated(m, unit, lines), lines) == CitedSet(m, unit, lines)
  {
    GroundedNames(m, unit, lines);
    IdsOfOrder(CitedSet(m, unit, lines));
    QuotedCiteWithin(m, CitedSet(m, unit, lines), lines);
    KnownIds(m, unit, lines);
    CitesExactly(m, Hydrated(m, unit, lines), CitedSet(m, unit, lines), lines);
  }

  lemma GroundedAgain(m: Matcher, unit: Unit, lines: map<int, string>)
    requires IsGrounded(m, unit, lines)
    ensures var once := Hydrated(m, unit, lines);
            IsGrounded(m, once, lines) && SameButQuality(Hydrated(m, once, lines), once)
  {
    CitesAgain(m, unit, lines);
  }

  // A second pass rejects nothing and changes nothing but the quality fields.
  lemma {:induction false} SecondPass(m: Matcher, units: seq<Unit>, lines: map<int, string>)
    ensures var once := Kept(m, units, lines);
            var twice := Kept(m, once, lines);
            |twice| == |once| && forall i :: 0 <= i < |once| ==> SameButQuality(twice[i], once[i])
  {
    if units != [] {
      var init, last := units[..|units| - 1], units[|units| - 1];
      SecondPass(m, init, lines);
      if IsGrounded(m, last, lines) {
        GroundedAgain(m, last, lines);
        Snoc(Kept(m, init, lines), Hydrated(m, last, lines));
      }
    }
  }
}

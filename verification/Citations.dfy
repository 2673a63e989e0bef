// Which lines a kept unit cites, and which units are rejected, said of the unit
// and the transcript alone.

module Citations {
  import opened Text
  import opened Artifacts
  import opened Evidence

  // Between the two numbers of a span, in either order.
  predicate Between(span: Span, n: int) {
    span.sequenceStart <= n <= span.sequenceEnd || span.sequenceEnd <= n <= span.sequenceStart
  }

  // The folded line has the citation in it, or is at least twelve characters
  // long and in the citation, or shares enough words with it.
  predicate Matches(m: Matcher, line: string, cited: string) {
    && m.fold(line) != "" && cited != ""
    && ((exists i :: 0 <= i <= |m.fold(line)| - |cited| && OccursAt(m.fold(line), cited, i))
        || (|m.fold(line)| >= 12 && exists i :: 0 <= i <= |cited| - |m.fold(line)| && OccursAt(cited, m.fold(line), i))
        || m.overlaps(m.fold(line), cited))
  }

  // A span cites the lines between its numbers; one that meets no line cites the
  // lines its text matches, unless the text is a mere marker.
  ghost predicate SpanCites(m: Matcher, span: Span, lines: map<int, string>, n: int) {
    && n in lines
    && if exists k :: k in lines && Between(span, k) then Between(span, n)
       else !("sequence:" <= m.fold(span.text)) && Matches(m, lines[n], m.fold(span.text))
  }

  ghost predicate Named(m: Matcher, unit: Unit, lines: map<int, string>, n: int) {
    n in lines && (n in unit.evidenceIds || exists i :: 0 <= i < |unit.evidence| && SpanCites(m, unit.evidence[i], lines, n))
  }

  // What a unit cites: the lines its identifiers and spans name; when these name
  // none, the lines its meaning matches.
  ghost predicate Cites(m: Matcher, unit: Unit, lines: map<int, string>, n: int) {
    if exists k :: Named(m, unit, lines, k) then Named(m, unit, lines, n)
    else n in lines && Matches(m, lines[n], m.fold(unit.meaning))
  }

  lemma SupportingAre(m: Matcher, cited: string, lines: map<int, string>, n: int)
    ensures n in Supporting(m, cited, lines) <==> n in lines && Matches(m, lines[n], cited)
  {
  }

  lemma IntersectedAre(span: Span, lines: map<int, string>, n: int)
    ensures n in Intersected(span, lines) <==> n in lines && Between(span, n)
  {
  }

  lemma SpanIdsAre(m: Matcher, span: Span, lines: map<int, string>, n: int)
    ensures n in SpanIds(m, span, lines) <==> SpanCites(m, span, lines, n)
  {
    SupportingAre(m, m.fold(span.text), lines, n);
    forall k: int
      ensures k in Intersected(span, lines) <==> k in lines && Between(span, k)
    {
      IntersectedAre(span, lines, k);
    }
  }

  lemma {:induction false} AllSpanIdsAre(m: Matcher, spans: seq<Span>, lines: map<int, string>, n: int)
    ensures n in AllSpanIds(m, spans, lines) <==> exists i :: 0 <= i < |spans| && SpanCites(m, spans[i], lines, n)
  {
    if spans != [] {
      var init := spans[..|spans| - 1];
      AllSpanIdsAre(m, init, lines, n);
      SpanIdsAre(m, spans[|spans| - 1], lines, n);
      if exists i :: 0 <= i < |init| && SpanCites(m, init[i], lines, n) {
        var i :| 0 <= i < |init| && SpanCites(m, init[i], lines, n);
        assert SpanCites(m, spans[i], lines, n);
      }
      if exists i :: 0 <= i < |spans| && SpanCites(m, spans[i], lines, n) {
        var i :| 0 <= i < |spans| && SpanCites(m, spans[i], lines, n);
        assert i < |init| ==> SpanCites(m, init[i], lines, n);
      }
    }
  }

  lemma NamedAre(m: Matcher, unit: Unit, lines: map<int, string>, n: int)
    ensures n in Known(IdSet(unit.evidenceIds), lines) + AllSpanIds(m, unit.evidence, lines) <==> Named(m, unit, lines, n)
  {
    IdSetIs(unit.evidenceIds, n);
    AllSpanIdsAre(m, unit.evidence, lines, n);
  }

  lemma CitedAre(m: Matcher, unit: Unit, lines: map<int, string>, n: int)
    ensures n in CitedSet(m, unit, lines) <==> Cites(m, unit, lines, n)
  {
    var ids := Known(IdSet(unit.evidenceIds), lines) + AllSpanIds(m, unit.evidence, lines);
    forall k: int
      ensures k in ids <==> Named(m, unit, lines, k)
    {
      NamedAre(m, unit, lines, k);
    }
    SupportingAre(m, m.fold(unit.meaning), lines, n);
  }

  lemma CitedIdsAre(m: Matcher, unit: Unit, lines: map<int, string>, n: int)
    ensures n in CitedIds(m, unit, lines) <==> Cites(m, unit, lines, n)
  {
    InOrderAscends(CitedSet(m, unit, lines));
    CitedAre(m, unit, lines, n);
  }

  lemma {:induction false} SomethingQuoted(ids: seq<int>, lines: map<int, string>)
    requires forall i :: 0 <= i < |ids| ==> ids[i] in lines
    ensures Quoted(ids, lines) != [] <==> exists n :: n in ids && Strip(lines[n]) != ""
  {
    QuotedLines(ids, lines);
    if Quoted(ids, lines) != [] {
      assert QuotesLine(Quoted(ids, lines)[0], ids, lines);
    }
  }

  // A unit is rejected exactly when its meaning is blank, or every line it cites is.
  lemma GroundedExactly(m: Matcher, unit: Unit, lines: map<int, string>)
    ensures IsGrounded(m, unit, lines) <==>
            Strip(unit.meaning) != "" && exists n :: Cites(m, unit, lines, n) && Strip(lines[n]) != ""
  {
    var ids := CitedIds(m, unit, lines);
    forall n: int
      ensures n in ids <==> Cites(m, unit, lines, n)
    {
      CitedIdsAre(m, unit, lines, n);
    }
    SomethingQuoted(ids, lines);
  }

  // ----- the metadata of a kept unit

  // The cited lines with single blanks between them.
  function SpokenBy(ids: seq<int>, lines: map<int, string>): string {
    if ids == [] then ""
    else
      var first := if ids[0] in lines then lines[ids[0]] else "";
      if |ids| == 1 then first else first + " " + SpokenBy(ids[1..], lines)
  }

  // An owner or a due date stays only if the cited lines say it.
  predicate StaysIfSaid(m: Matcher, before: string, after: string, said: string) {
    if before == "" || (exists i :: 0 <= i <= |m.fold(said)| - |m.fold(before)| && OccursAt(m.fold(said), m.fold(before), i))
    then after == before else after == ""
  }

  lemma {:induction false} SpokenSnoc(ids: seq<int>, lines: map<int, string>)
    requires |ids| > 1
    ensures var n := |ids| - 1;
            SpokenBy(ids, lines) == SpokenBy(ids[..n], lines) + " " + if ids[n] in lines then lines[ids[n]] else ""
  {
    var n := |ids| - 1;
    if n > 1 {
      SpokenSnoc(ids[1..], lines);
      assert ids[1..][..n - 1] == ids[..n][1..];
    }
  }

  lemma {:induction false} JoinedIsSpoken(ids: seq<int>, lines: map<int, string>)
    requires forall i :: 0 <= i < |ids| ==> ids[i] in lines
    ensures Joined(ids, lines) == SpokenBy(ids, lines)
  {
    if |ids| > 1 {
      JoinedIsSpoken(ids[..|ids| - 1], lines);
      SpokenSnoc(ids, lines);
    }
  }

  // What is kept of a unit besides its citations.
  ghost predicate KeepsMeta(m: Matcher, unit: Unit, after: Unit, lines: map<int, string>) {
    var said := SpokenBy(after.evidenceIds, lines);
    && after.key == unit.key && after.kind == unit.kind && after.meaning == unit.meaning && after.state == unit.state
    && StaysIfSaid(m, unit.ownerText, after.ownerText, said) && StaysIfSaid(m, unit.dueDateText, after.dueDateText, said)
    && after.quality == Quality(Some(if after.ownerText == unit.ownerText && after.dueDateText == unit.dueDateText then Valid
                                     else OptionalInvalid), after.evidenceIds)
  }

  lemma HydratedKeeps(m: Matcher, unit: Unit, lines: map<int, string>)
    requires IsGrounded(m, unit, lines)
    ensures Hydrated(m, unit, lines).evidenceIds == CitedIds(m, unit, lines)
    ensures KeepsMeta(m, unit, Hydrated(m, unit, lines), lines)
  {
    JoinedIsSpoken(CitedIds(m, unit, lines), lines);
  }

  // A kept unit cites exactly those lines, and keeps the rest of what it says.
  lemma KeptCitesExactly(m: Matcher, units: seq<Unit>, lines: map<int, string>, i: nat, n: int)
    requires i < |Kept(m, units, lines)|
    ensures |Positions(m, units, lines)| == |Kept(m, units, lines)| && Positions(m, units, lines)[i] < |units|
    ensures var unit, after := units[Positions(m, units, lines)[i]], Kept(m, units, lines)[i];
            (n in after.evidenceIds <==> Cites(m, unit, lines, n)) && KeepsMeta(m, unit, after, lines)
  {
    KeptAreSelected(m, units, lines, i);
    var unit := units[Positions(m, units, lines)[i]];
    CitedIdsAre(m, unit, lines, n);
    HydratedKeeps(m, unit, lines);
  }

  // A unit is kept exactly when it says something and cites something that does.
  lemma KeptExactly(m: Matcher, units: seq<Unit>, lines: map<int, string>, k: nat)
    requires k < |units|
    ensures k in Positions(m, units, lines) <==>
            Strip(units[k].meaning) != "" && exists n :: Cites(m, units[k], lines, n) && Strip(lines[n]) != ""
  {
    PositionOf(m, units, lines, k);
    GroundedExactly(m, units[k], lines);
  }
}

// Whether the final result represents every meaningful artifact, and the
// repair that adds those it leaves out (services/conversation/coverage.py and
// the conversion in services/conversation/artifacts.py).

module Coverage {
  import opened Seqs
  import opened Text
  import opened Artifacts

  // A task, note, decision or issue of a result.
  datatype Item = Item(title: string, body: string, artifactId: string, evidence: seq<Span>)

  datatype FinalResult = FinalResult(
    summary: string,
    topics: seq<string>,
    tasks: seq<Item>,
    notes: seq<Item>,
    decisions: seq<Item>,
    issues: seq<Item>,
    facts: seq<string>,
    questions: seq<string>
  )

  // ----- kinds and statuses

  predicate IsHidden(s: LifecycleStatus) {
    s.Superseded? || s.Merged? || s.Rejected? || s.Cancelled?
  }

  predicate IsTaskType(t: ArtifactType) {
    t.Task? || t.FollowUp? || t.Commitment? || t.Deadline?
  }

  predicate IsIssueType(t: ArtifactType) {
    t.Question? || t.Risk? || t.Blocker?
  }

  predicate IsMeaningful(a: Artifact) {
    !IsHidden(a.status) && Strip(a.title) != ""
  }

  function Meaningful(artifacts: seq<Artifact>): seq<Artifact> {
    if artifacts == [] then []
    else if IsMeaningful(artifacts[|artifacts| - 1]) then Meaningful(artifacts[..|artifacts| - 1]) + [artifacts[|artifacts| - 1]]
    else Meaningful(artifacts[..|artifacts| - 1])
  }

  // ----- titles

  function Titles(items: seq<Item>): (r: seq<string>)
    ensures |r| == |items|
  {
    if items == [] then [] else Titles(items[..|items| - 1]) + [items[|items| - 1].title]
  }

  function FinalTitles(r: FinalResult): seq<string> {
    Titles(r.tasks) + Titles(r.notes) + Titles(r.decisions) + Titles(r.issues) + r.facts + r.questions
  }

  predicate HasNorm(lex: Lexicon, norm: string, titles: seq<string>) {
    titles != [] && (lex.normalize(titles[|titles| - 1]) == norm || HasNorm(lex, norm, titles[..|titles| - 1]))
  }

  // `item_is_represented`
  predicate IsRepresented(lex: Lexicon, title: string, titles: seq<string>) {
    lex.normalize(title) != "" && HasNorm(lex, lex.normalize(title), titles)
  }

  function Unrepresented(lex: Lexicon, artifacts: seq<Artifact>, titles: seq<string>): seq<string> {
    if artifacts == [] then []
    else if IsRepresented(lex, artifacts[|artifacts| - 1].title, titles) then Unrepresented(lex, artifacts[..|artifacts| - 1], titles)
    else Unrepresented(lex, artifacts[..|artifacts| - 1], titles) + [artifacts[|artifacts| - 1].title]
  }

  datatype Signal = Signal(meaningful: nat, represented: nat, unrepresented: seq<string>)

  // `evaluate_coverage`, as far as artifacts are concerned
  function Evaluate(lex: Lexicon, artifacts: seq<Artifact>, result: FinalResult): Signal {
    var meaningful := Meaningful(artifacts);
    var missing := Unrepresented(lex, meaningful, FinalTitles(result));
    UnrepresentedSize(lex, meaningful, FinalTitles(result));
    Signal(|meaningful|, |meaningful| - |missing|, if |missing| > 40 then missing[..40] else missing)
  }

  lemma {:induction false} UnrepresentedSize(lex: Lexicon, artifacts: seq<Artifact>, titles: seq<string>)
    ensures |Unrepresented(lex, artifacts, titles)| <= |artifacts|
  {
    if artifacts != [] {
      UnrepresentedSize(lex, artifacts[..|artifacts| - 1], titles);
    }
  }

  // ----- the artifacts as a result

  function ItemOf(a: Artifact): Item {
    Item(a.title, Or(a.content, a.title), a.id, a.evidence)
  }

  // One artifact is added to the result, unless it is hidden; an item needs evidence.
  function Carry(r: FinalResult, a: Artifact): FinalResult {
    if IsHidden(a.status) then r
    else
      var items := if a.evidence == [] then [] else [ItemOf(a)];
      if IsTaskType(a.artifactType) then r.(tasks := r.tasks + items)
      else if a.artifactType.Decision? then r.(decisions := r.decisions + items)
      else if IsIssueType(a.artifactType) then
        r.(issues := r.issues + items, questions := if a.artifactType.Question? then r.questions + [a.title] else r.questions)
      else
        r.(notes := r.notes + items, facts := if a.artifactType.Fact? then r.facts + [Or(a.content, a.title)] else r.facts)
  }

  function CarryAll(artifacts: seq<Artifact>, summary: string, topics: seq<string>): FinalResult {
    if artifacts == [] then FinalResult(summary, topics, [], [], [], [], [], [])
    else Carry(CarryAll(artifacts[..|artifacts| - 1], summary, topics), artifacts[|artifacts| - 1])
  }

  method ArtifactsToResult(artifacts: seq<Artifact>, summary: string, topics: seq<string>) returns (r: FinalResult)
    ensures r == CarryAll(artifacts, summary, topics)
  {
    var tasks: seq<Item>, notes: seq<Item>, decisions: seq<Item>, issues: seq<Item> := [], [], [], [];
    var facts: seq<string>, questions: seq<string> := [], [];
    for i := 0 to |artifacts|
      invariant FinalResult(summary, topics, tasks, notes, decisions, issues, facts, questions) ==
                CarryAll(artifacts[..i], summary, topics)
    {
      TakeSnoc(artifacts, i);
      var a := artifacts[i];
      if IsHidden(a.status) {
        continue;
      }
      var items := if a.evidence == [] then [] else [ItemOf(a)];
      if IsTaskType(a.artifactType) {
        tasks := tasks + items;
      } else if a.artifactType.Decision? {
        decisions := decisions + items;
      } else if IsIssueType(a.artifactType) {
        issues := issues + items;
        if a.artifactType.Question? {
          questions := questions + [a.title];
        }
      } else {
        notes := notes + items;
        if a.artifactType.Fact? {
          facts := facts + [Or(a.content, a.title)];
        }
      }
    }
    TakeAll(artifacts);
    r := FinalResult(summary, topics, tasks, notes, decisions, issues, facts, questions);
  }

  predicate IsShown(a: Artifact) {
    a.status != Superseded && a.status != Merged && a.status != Rejected && a.status != Cancelled
  }

  function ItemIf(a: Artifact, kinds: set<ArtifactType>): seq<Item> {
    if a.artifactType in kinds && a.evidence != [] && IsShown(a)
    then [Item(a.title, if a.content != "" then a.content else a.title, a.id, a.evidence)]
    else []
  }

  // The artifacts of some kinds that become items, in their order.
  function ItemsOf(artifacts: seq<Artifact>, kinds: set<ArtifactType>): seq<Item> {
    if artifacts == [] then [] else ItemsOf(artifacts[..|artifacts| - 1], kinds) + ItemIf(artifacts[|artifacts| - 1], kinds)
  }

  function SayingIf(a: Artifact, kind: ArtifactType): seq<string> {
    if a.artifactType == kind && IsShown(a) then [if kind == Question || a.content == "" then a.title else a.content] else []
  }

  // What shown artifacts of one kind say, with or without evidence.
  function SayingsOf(artifacts: seq<Artifact>, kind: ArtifactType): seq<string> {
    if artifacts == [] then [] else SayingsOf(artifacts[..|artifacts| - 1], kind) + SayingIf(artifacts[|artifacts| - 1], kind)
  }

  const TaskKinds := {Task, FollowUp, Commitment, Deadline}

  const NoteKinds := {Note, Answer, Idea, Requirement, Fact, Preference, Reference}

  const DecisionKinds := {ArtifactType.Decision}

  const IssueKinds := {Question, Risk, Blocker}

  lemma CarryAdds(r: FinalResult, a: Artifact)
    ensures Carry(r, a) ==
            FinalResult(r.summary, r.topics, r.tasks + ItemIf(a, TaskKinds), r.notes + ItemIf(a, NoteKinds),
                        r.decisions + ItemIf(a, DecisionKinds), r.issues + ItemIf(a, IssueKinds),
                        r.facts + SayingIf(a, Fact), r.questions + SayingIf(a, Question))
  {
    EmptyRight(r.tasks);
    EmptyRight(r.notes);
    EmptyRight(r.decisions);
    EmptyRight(r.issues);
    EmptyRight(r.facts);
    EmptyRight(r.questions);
  }

  // Each artifact goes to the list of its kind.
  lemma {:induction false} CarriedByKind(artifacts: seq<Artifact>, summary: string, topics: seq<string>)
    ensures CarryAll(artifacts, summary, topics) ==
            FinalResult(summary, topics, ItemsOf(artifacts, TaskKinds), ItemsOf(artifacts, NoteKinds),
                        ItemsOf(artifacts, DecisionKinds), ItemsOf(artifacts, IssueKinds),
                        SayingsOf(artifacts, Fact), SayingsOf(artifacts, Question))
  {
    if artifacts != [] {
      var init := artifacts[..|artifacts| - 1];
      CarriedByKind(init, summary, topics);
      CarryAdds(CarryAll(init, summary, topics), artifacts[|artifacts| - 1]);
    }
  }

  // ----- the repair

  // `_union_by_title`
  function UnionByTitle(lex: Lexicon, primary: seq<Item>, extra: seq<Item>): seq<Item> {
    if extra == [] then primary
    else
      var merged, item := UnionByTitle(lex, primary, extra[..|extra| - 1]), extra[|extra| - 1];
      if IsRepresented(lex, item.title, Titles(merged)) then merged else merged + [item]
  }

  method UniteByTitle(lex: Lexicon, primary: seq<Item>, extra: seq<Item>) returns (merged: seq<Item>)
    ensures merged == UnionByTitle(lex, primary, extra)
  {
    var titles := Titles(primary);
    merged := primary;
    for i := 0 to |extra|
      invariant merged == UnionByTitle(lex, primary, extra[..i]) && titles == Titles(merged)
    {
      TakeSnoc(extra, i);
      if IsRepresented(lex, extra[i].title, titles) {
        continue;
      }
      Snoc(merged, extra[i]);
      merged := merged + [extra[i]];
      titles := titles + [extra[i].title];
    }
    TakeAll(extra);
  }

  function StringKeys(key: string -> string, strings: seq<string>): set<string> {
    if strings == [] then {}
    else if Strip(strings[|strings| - 1]) == "" then StringKeys(key, strings[..|strings| - 1])
    else StringKeys(key, strings[..|strings| - 1]) + {key(Strip(strings[|strings| - 1]))}
  }

  // `_union_strings`, with the case folding `key`
  function UnionStrings(key: string -> string, primary: seq<string>, extra: seq<string>): seq<string> {
    if extra == [] then primary
    else
      var merged, item := UnionStrings(key, primary, extra[..|extra| - 1]), extra[|extra| - 1];
      if Strip(item) == "" || key(Strip(item)) in StringKeys(key, merged) then merged else merged + [item]
  }

  // `preserve_unrepresented`
  function Preserve(lex: Lexicon, key: string -> string, result: FinalResult, artifacts: seq<Artifact>): FinalResult {
    var carried := CarryAll(artifacts, result.summary, result.topics);
    FinalResult(
      Or(result.summary, carried.summary),
      if result.topics == [] then carried.topics else result.topics,
      UnionByTitle(lex, result.tasks, carried.tasks),
      UnionByTitle(lex, result.notes, carried.notes),
      UnionByTitle(lex, result.decisions, carried.decisions),
      UnionByTitle(lex, result.issues, carried.issues),
      UnionStrings(key, result.facts, carried.facts),
      UnionStrings(key, result.questions, carried.questions))
  }

  // ----- the repair closes the gap

  lemma {:induction false} NormConcat(lex: Lexicon, norm: string, a: seq<string>, b: seq<string>)
    ensures HasNorm(lex, norm, a + b) <==> HasNorm(lex, norm, a) || HasNorm(lex, norm, b)
  {
    if b == [] {
      EmptyRight(a);
    } else {
      NormConcat(lex, norm, a, b[..|b| - 1]);
      InitOfConcat(a, b);
    }
  }

  lemma TitlesSnoc(items: seq<Item>, item: Item)
    ensures Titles(items + [item]) == Titles(items) + [item.title]
  {
    Snoc(items, item);
  }

  // A union keeps what it had, and represents everything it was given.
  lemma {:induction false} UnionRepresents(lex: Lexicon, primary: seq<Item>, extra: seq<Item>, norm: string)
    requires norm != ""
    ensures HasNorm(lex, norm, Titles(UnionByTitle(lex, primary, extra))) <==>
            HasNorm(lex, norm, Titles(primary)) || HasNorm(lex, norm, Titles(extra))
  {
    if extra != [] {
      var merged, item := UnionByTitle(lex, primary, extra[..|extra| - 1]), extra[|extra| - 1];
      UnionRepresents(lex, primary, extra[..|extra| - 1], norm);
      TitlesSnoc(merged, item);
      Snoc(Titles(merged), item.title);
      Snoc(Titles(extra[..|extra| - 1]), item.title);
    }
  }

  lemma {:induction false} UnionKeeps(lex: Lexicon, primary: seq<Item>, extra: seq<Item>)
    ensures primary <= UnionByTitle(lex, primary, extra)
  {
    if extra != [] {
      UnionKeeps(lex, primary, extra[..|extra| - 1]);
    }
  }

  lemma {:induction false} UnionStringsKeep(key: string -> string, primary: seq<string>, extra: seq<string>)
    ensures primary <= UnionStrings(key, primary, extra)
  {
    if extra != [] {
      UnionStringsKeep(key, primary, extra[..|extra| - 1]);
    }
  }

  // What the four lists of items represent.
  predicate ItemsHaveNorm(lex: Lexicon, norm: string, r: FinalResult) {
    HasNorm(lex, norm, Titles(r.tasks)) || HasNorm(lex, norm, Titles(r.notes)) || HasNorm(lex, norm, Titles(r.decisions))
    || HasNorm(lex, norm, Titles(r.issues))
  }

  lemma FinalTitlesHave(lex: Lexicon, norm: string, r: FinalResult)
    ensures HasNorm(lex, norm, FinalTitles(r)) <==>
            ItemsHaveNorm(lex, norm, r) || HasNorm(lex, norm, r.facts) || HasNorm(lex, norm, r.questions)
  {
    var tn := Titles(r.tasks) + Titles(r.notes);
    NormConcat(lex, norm, Titles(r.tasks), Titles(r.notes));
    NormConcat(lex, norm, tn, Titles(r.decisions));
    NormConcat(lex, norm, tn + Titles(r.decisions), Titles(r.issues));
    NormConcat(lex, norm, tn + Titles(r.decisions) + Titles(r.issues), r.facts);
    NormConcat(lex, norm, tn + Titles(r.decisions) + Titles(r.issues) + r.facts, r.questions);
  }

  lemma {:induction false} TitlesConcat(a: seq<Item>, b: seq<Item>)
    ensures Titles(a + b) == Titles(a) + Titles(b)
  {
    if b == [] {
      EmptyRight(a);
      EmptyRight(Titles(a));
    } else {
      var init, last := b[..|b| - 1], b[|b| - 1].title;
      TitlesConcat(a, init);
      InitOfConcat(a, b);
      Assoc(Titles(a), Titles(init), [last]);
    }
  }

  lemma ItemAdded(lex: Lexicon, norm: string, items: seq<Item>, more: seq<Item>)
    ensures HasNorm(lex, norm, Titles(items + more)) <==> HasNorm(lex, norm, Titles(items)) || HasNorm(lex, norm, Titles(more))
  {
    TitlesConcat(items, more);
    NormConcat(lex, norm, Titles(items), Titles(more));
  }

  // An artifact that becomes an item.
  predicate IsCarried(a: Artifact) {
    !IsHidden(a.status) && a.evidence != []
  }

  lemma CarriesOne(lex: Lexicon, norm: string, r: FinalResult, a: Artifact)
    ensures ItemsHaveNorm(lex, norm, Carry(r, a)) <==>
            ItemsHaveNorm(lex, norm, r) || (IsCarried(a) && lex.normalize(a.title) == norm)
  {
    var items := if a.evidence == [] then [] else [ItemOf(a)];
    assert HasNorm(lex, norm, Titles(items)) <==> a.evidence != [] && lex.normalize(a.title) == norm;
    if IsTaskType(a.artifactType) {
      ItemAdded(lex, norm, r.tasks, items);
    } else if a.artifactType.Decision? {
      ItemAdded(lex, norm, r.decisions, items);
    } else if IsIssueType(a.artifactType) {
      ItemAdded(lex, norm, r.issues, items);
    } else {
      ItemAdded(lex, norm, r.notes, items);
    }
  }

  ghost predicate SomeCarried(lex: Lexicon, norm: string, artifacts: seq<Artifact>) {
    exists i :: 0 <= i < |artifacts| && IsCarried(artifacts[i]) && lex.normalize(artifacts[i].title) == norm
  }

  lemma SomeCarriedSnoc(lex: Lexicon, norm: string, artifacts: seq<Artifact>)
    requires artifacts != []
    ensures var n := |artifacts| - 1;
            SomeCarried(lex, norm, artifacts) <==>
            SomeCarried(lex, norm, artifacts[..n]) || (IsCarried(artifacts[n]) && lex.normalize(artifacts[n].title) == norm)
  {
    var init := artifacts[..|artifacts| - 1];
    if SomeCarried(lex, norm, init) {
      var i :| 0 <= i < |init| && IsCarried(init[i]) && lex.normalize(init[i].title) == norm;
      assert artifacts[i] == init[i];
    }
    if SomeCarried(lex, norm, artifacts) {
      var i :| 0 <= i < |artifacts| && IsCarried(artifacts[i]) && lex.normalize(artifacts[i].title) == norm;
      assert i < |init| ==> init[i] == artifacts[i];
    }
  }

  // Exactly the artifacts that are not hidden and have evidence become items.
  lemma {:induction false} Carries(lex: Lexicon, norm: string, artifacts: seq<Artifact>, summary: string, topics: seq<string>)
    ensures ItemsHaveNorm(lex, norm, CarryAll(artifacts, summary, topics)) <==> SomeCarried(lex, norm, artifacts)
  {
    if artifacts != [] {
      var n := |artifacts| - 1;
      Carries(lex, norm, artifacts[..n], summary, topics);
      CarriesOne(lex, norm, CarryAll(artifacts[..n], summary, topics), artifacts[n]);
      SomeCarriedSnoc(lex, norm, artifacts);
    }
  }

  lemma PreservesItems(lex: Lexicon, key: string -> string, result: FinalResult, artifacts: seq<Artifact>, norm: string)
    requires norm != ""
    ensures ItemsHaveNorm(lex, norm, Preserve(lex, key, result, artifacts)) <==>
            ItemsHaveNorm(lex, norm, result) || ItemsHaveNorm(lex, norm, CarryAll(artifacts, result.summary, result.topics))
  {
    var carried := CarryAll(artifacts, result.summary, result.topics);
    UnionRepresents(lex, result.tasks, carried.tasks, norm);
    UnionRepresents(lex, result.notes, carried.notes, norm);
    UnionRepresents(lex, result.decisions, carried.decisions, norm);
    UnionRepresents(lex, result.issues, carried.issues, norm);
  }

  ghost predicate Nameable(lex: Lexicon, artifacts: seq<Artifact>) {
    forall i :: 0 <= i < |artifacts| ==> lex.normalize(artifacts[i].title) != ""
  }

  lemma {:induction false} NoneUnrepresented(lex: Lexicon, artifacts: seq<Artifact>, titles: seq<string>)
    ensures Unrepresented(lex, artifacts, titles) == [] <==>
            forall i :: 0 <= i < |artifacts| ==> IsRepresented(lex, artifacts[i].title, titles)
  {
    if artifacts != [] {
      NoneUnrepresented(lex, artifacts[..|artifacts| - 1], titles);
    }
  }

  lemma {:induction false} MeaningfulAre(artifacts: seq<Artifact>, i: nat)
    requires i < |Meaningful(artifacts)|
    ensures IsMeaningful(Meaningful(artifacts)[i])
    ensures exists k :: 0 <= k < |artifacts| && artifacts[k] == Meaningful(artifacts)[i]
  {
    var n := |artifacts| - 1;
    if i < |Meaningful(artifacts[..n])| {
      MeaningfulAre(artifacts[..n], i);
      var k :| 0 <= k < n && artifacts[..n][k] == Meaningful(artifacts)[i];
      assert artifacts[k] == Meaningful(artifacts)[i];
    } else {
      assert artifacts[n] == Meaningful(artifacts)[i];
    }
  }

  // What can represent a title after the repair: an item of the result, an
  // artifact that becomes one, or one of the united facts and questions.
  ghost predicate MayRepresent(lex: Lexicon, key: string -> string, result: FinalResult, artifacts: seq<Artifact>, norm: string) {
    var after := Preserve(lex, key, result, artifacts);
    && norm != ""
    && (ItemsHaveNorm(lex, norm, result) || SomeCarried(lex, norm, artifacts)
        || HasNorm(lex, norm, after.facts) || HasNorm(lex, norm, after.questions))
  }

  // The repaired result represents a title exactly when one of these does.
  lemma RepairRepresents(lex: Lexicon, key: string -> string, result: FinalResult, artifacts: seq<Artifact>, title: string)
    ensures IsRepresented(lex, title, FinalTitles(Preserve(lex, key, result, artifacts))) <==>
            MayRepresent(lex, key, result, artifacts, lex.normalize(title))
  {
    var norm := lex.normalize(title);
    if norm != "" {
      Carries(lex, norm, artifacts, result.summary, result.topics);
      PreservesItems(lex, key, result, artifacts, norm);
      FinalTitlesHave(lex, norm, Preserve(lex, key, result, artifacts));
    }
  }

  lemma {:induction false} UnrepresentedAre(lex: Lexicon, artifacts: seq<Artifact>, titles: seq<string>, title: string)
    ensures title in Unrepresented(lex, artifacts, titles) <==>
            !IsRepresented(lex, title, titles) && exists i :: 0 <= i < |artifacts| && artifacts[i].title == title
  {
    if artifacts != [] {
      var init, last := artifacts[..|artifacts| - 1], artifacts[|artifacts| - 1];
      UnrepresentedAre(lex, init, titles, title);
      if exists i :: 0 <= i < |init| && init[i].title == title {
        var i :| 0 <= i < |init| && init[i].title == title;
        assert artifacts[i] == init[i];
      }
      if exists i :: 0 <= i < |artifacts| && artifacts[i].title == title {
        var i :| 0 <= i < |artifacts| && artifacts[i].title == title;
        assert i < |init| ==> init[i] == artifacts[i];
      }
    }
  }

  lemma {:induction false} MeaningfulIsListed(artifacts: seq<Artifact>, i: nat) returns (k: nat)
    requires i < |artifacts| && IsMeaningful(artifacts[i])
    ensures k < |Meaningful(artifacts)| && Meaningful(artifacts)[k] == artifacts[i]
  {
    var n := |artifacts| - 1;
    if i == n {
      k := |Meaningful(artifacts)| - 1;
    } else {
      k := MeaningfulIsListed(artifacts[..n], i);
    }
  }

  // Which meaningful artifacts the repair leaves unrepresented.
  lemma RepairLeaves(lex: Lexicon, key: string -> string, result: FinalResult, artifacts: seq<Artifact>, i: nat)
    requires i < |artifacts| && IsMeaningful(artifacts[i])
    ensures artifacts[i].title in Unrepresented(lex, Meaningful(artifacts), FinalTitles(Preserve(lex, key, result, artifacts))) <==>
            !MayRepresent(lex, key, result, artifacts, lex.normalize(artifacts[i].title))
  {
    var k := MeaningfulIsListed(artifacts, i);
    UnrepresentedAre(lex, Meaningful(artifacts), FinalTitles(Preserve(lex, key, result, artifacts)), artifacts[i].title);
    RepairRepresents(lex, key, result, artifacts, artifacts[i].title);
  }

  ghost predicate AllMayBe(lex: Lexicon, key: string -> string, result: FinalResult, artifacts: seq<Artifact>) {
    var meaningful := Meaningful(artifacts);
    forall i :: 0 <= i < |meaningful| ==> MayRepresent(lex, key, result, artifacts, lex.normalize(meaningful[i].title))
  }

  // The repaired result represents all meaningful artifacts exactly when each of
  // their titles may be represented.
  lemma RepairClosesExactly(lex: Lexicon, key: string -> string, result: FinalResult, artifacts: seq<Artifact>)
    ensures var after := Evaluate(lex, artifacts, Preserve(lex, key, result, artifacts));
            after.unrepresented == [] && after.represented == after.meaningful <==> AllMayBe(lex, key, result, artifacts)
  {
    var meaningful, titles := Meaningful(artifacts), FinalTitles(Preserve(lex, key, result, artifacts));
    NoneUnrepresented(lex, meaningful, titles);
    if AllMayBe(lex, key, result, artifacts) {
      forall i | 0 <= i < |meaningful|
        ensures IsRepresented(lex, meaningful[i].title, titles)
      {
        RepairRepresents(lex, key, result, artifacts, meaningful[i].title);
      }
    } else {
      var i :| 0 <= i < |meaningful| && !MayRepresent(lex, key, result, artifacts, lex.normalize(meaningful[i].title));
      RepairRepresents(lex, key, result, artifacts, meaningful[i].title);
    }
  }

  // When every artifact has evidence, that is when their titles do not normalise
  // to nothing.
  lemma RepairCloses(lex: Lexicon, key: string -> string, result: FinalResult, artifacts: seq<Artifact>)
    requires forall i :: 0 <= i < |Meaningful(artifacts)| ==> Meaningful(artifacts)[i].evidence != []
    ensures var after := Evaluate(lex, artifacts, Preserve(lex, key, result, artifacts));
            after.unrepresented == [] && after.represented == after.meaningful <==> Nameable(lex, Meaningful(artifacts))
  {
    var meaningful := Meaningful(artifacts);
    RepairClosesExactly(lex, key, result, artifacts);
    forall i | 0 <= i < |meaningful|
      ensures MayRepresent(lex, key, result, artifacts, lex.normalize(meaningful[i].title)) <==> lex.normalize(meaningful[i].title) != ""
    {
      MeaningfulAre(artifacts, i);
      var k :| 0 <= k < |artifacts| && artifacts[k] == meaningful[i];
      assert IsCarried(artifacts[k]);
    }
  }

  // The repair takes nothing out of the result.
  lemma RepairKeeps(lex: Lexicon, key: string -> string, result: FinalResult, artifacts: seq<Artifact>)
    ensures var after := Preserve(lex, key, result, artifacts);
            && result.tasks <= after.tasks && result.notes <= after.notes
            && result.decisions <= after.decisions && result.issues <= after.issues
            && result.facts <= after.facts && result.questions <= after.questions
  {
    var carried := CarryAll(artifacts, result.summary, result.topics);
    UnionKeeps(lex, result.tasks, carried.tasks);
    UnionKeeps(lex, result.notes, carried.notes);
    UnionKeeps(lex, result.decisions, carried.decisions);
    UnionKeeps(lex, result.issues, carried.issues);
    UnionStringsKeep(key, result.facts, carried.facts);
    UnionStringsKeep(key, result.questions, carried.questions);
  }

  function Removed(artifacts: seq<Artifact>, i: nat): seq<Artifact>
    requires i < |artifacts|
  {
    artifacts[..i] + artifacts[i + 1..]
  }

  lemma {:induction false} AddsNothing(artifacts: seq<Artifact>, i: nat, summary: string, topics: seq<string>)
    requires i < |artifacts| && forall r :: Carry(r, artifacts[i]) == r
    ensures CarryAll(artifacts, summary, topics) == CarryAll(Removed(artifacts, i), summary, topics)
  {
    var n := |artifacts| - 1;
    if i == n {
      EmptyRight(artifacts[..n]);
    } else {
      AddsNothing(artifacts[..n], i, summary, topics);
      assert Removed(artifacts, i) == Removed(artifacts[..n], i) + [artifacts[n]];
      Snoc(Removed(artifacts[..n], i), artifacts[n]);
    }
  }

  lemma CarriesNothing(a: Artifact, r: FinalResult)
    requires a.evidence == [] && !a.artifactType.Question? && !a.artifactType.Fact?
    ensures Carry(r, a) == r
  {
    EmptyRight(r.tasks);
    EmptyRight(r.notes);
    EmptyRight(r.decisions);
    EmptyRight(r.issues);
  }

  // Without evidence, an artifact other than a question or a fact adds nothing to
  // the repair: it is represented exactly when what is there without it does so.
  lemma WithoutEvidence(lex: Lexicon, key: string -> string, result: FinalResult, artifacts: seq<Artifact>, i: nat)
    requires i < |artifacts| && IsMeaningful(artifacts[i]) && artifacts[i].evidence == []
    requires !artifacts[i].artifactType.Question? && !artifacts[i].artifactType.Fact?
    ensures Preserve(lex, key, result, artifacts) == Preserve(lex, key, result, Removed(artifacts, i))
    ensures artifacts[i].title in Unrepresented(lex, Meaningful(artifacts), FinalTitles(Preserve(lex, key, result, artifacts))) <==>
            !MayRepresent(lex, key, result, Removed(artifacts, i), lex.normalize(artifacts[i].title))
  {
    var title := artifacts[i].title;
    forall r: FinalResult
      ensures Carry(r, artifacts[i]) == r
    {
      CarriesNothing(artifacts[i], r);
    }
    AddsNothing(artifacts, i, result.summary, result.topics);
    RepairLeaves(lex, key, result, artifacts, i);
    RepairRepresents(lex, key, result, artifacts, title);
    RepairRepresents(lex, key, result, Removed(artifacts, i), title);
  }

  // A lone task without evidence stays unrepresented in an empty result.
  lemma LoneTaskIsLost(lex: Lexicon, key: string -> string, a: Artifact)
    requires IsMeaningful(a) && a.evidence == [] && IsTaskType(a.artifactType)
    ensures Evaluate(lex, [a], Preserve(lex, key, FinalResult("", [], [], [], [], [], [], []), [a])).unrepresented == [a.title]
  {
    var empty := FinalResult("", [], [], [], [], [], [], []);
    assert [a][..0] == [];
    assert CarryAll([a], "", []) == empty;
    assert Meaningful([a]) == [a];
    assert FinalTitles(Preserve(lex, key, empty, [a])) == [];
  }

  // ----- what is counted, and what is added, said of the titles

  lemma {:induction false} HasNormIs(lex: Lexicon, norm: string, titles: seq<string>)
    ensures HasNorm(lex, norm, titles) <==> exists t :: t in titles && lex.normalize(t) == norm
  {
    if titles != [] {
      HasNormIs(lex, norm, titles[..|titles| - 1]);
      Whole(titles);
    }
  }

  // An item, a fact or a question of the result has the title, up to normalising.
  ghost predicate SaidIn(lex: Lexicon, title: string, r: FinalResult) {
    && lex.normalize(title) != ""
    && (TitledAlike(lex, title, r.tasks) || TitledAlike(lex, title, r.notes) || TitledAlike(lex, title, r.decisions)
        || TitledAlike(lex, title, r.issues) || SaidAlike(lex, title, r.facts) || SaidAlike(lex, title, r.questions))
  }

  ghost predicate TitledAlike(lex: Lexicon, title: string, items: seq<Item>) {
    exists item :: item in items && lex.normalize(item.title) == lex.normalize(title)
  }

  ghost predicate SaidAlike(lex: Lexicon, title: string, sayings: seq<string>) {
    exists t :: t in sayings && lex.normalize(t) == lex.normalize(title)
  }

  lemma {:induction false} TitlesHave(lex: Lexicon, title: string, items: seq<Item>)
    ensures HasNorm(lex, lex.normalize(title), Titles(items)) <==> TitledAlike(lex, title, items)
  {
    if items != [] {
      TitlesHave(lex, title, items[..|items| - 1]);
      Snoc(Titles(items[..|items| - 1]), items[|items| - 1].title);
      Whole(items);
    }
  }

  lemma RepresentedExactly(lex: Lexicon, title: string, r: FinalResult)
    ensures IsRepresented(lex, title, FinalTitles(r)) <==> SaidIn(lex, title, r)
  {
    var norm := lex.normalize(title);
    FinalTitlesHave(lex, norm, r);
    TitlesHave(lex, title, r.tasks);
    TitlesHave(lex, title, r.notes);
    TitlesHave(lex, title, r.decisions);
    TitlesHave(lex, title, r.issues);
    HasNormIs(lex, norm, r.facts);
    HasNormIs(lex, norm, r.questions);
  }

  // Shown, and with a title that is not blank.
  predicate Counts(a: Artifact) {
    IsShown(a) && Strip(a.title) != ""
  }

  function Counted(artifacts: seq<Artifact>): nat {
    if artifacts == [] then 0 else Counted(artifacts[..|artifacts| - 1]) + if Counts(artifacts[|artifacts| - 1]) then 1 else 0
  }

  // The titles that count and are not said, in order.
  ghost function Lost(lex: Lexicon, artifacts: seq<Artifact>, r: FinalResult): seq<string> {
    if artifacts == [] then []
    else
      var a := artifacts[|artifacts| - 1];
      Lost(lex, artifacts[..|artifacts| - 1], r) + if Counts(a) && !SaidIn(lex, a.title, r) then [a.title] else []
  }

  lemma {:induction false} CountsLost(lex: Lexicon, artifacts: seq<Artifact>, r: FinalResult)
    ensures |Meaningful(artifacts)| == Counted(artifacts)
    ensures Unrepresented(lex, Meaningful(artifacts), FinalTitles(r)) == Lost(lex, artifacts, r)
  {
    if artifacts != [] {
      var init, a := artifacts[..|artifacts| - 1], artifacts[|artifacts| - 1];
      CountsLost(lex, init, r);
      RepresentedExactly(lex, a.title, r);
      Snoc(Meaningful(init), a);
      EmptyRight(Lost(lex, init, r));
    }
  }

  // The signal counts the shown artifacts with a title, and names the first
  // forty that the result does not say.
  lemma SignalIs(lex: Lexicon, artifacts: seq<Artifact>, r: FinalResult)
    ensures var signal, lost := Evaluate(lex, artifacts, r), Lost(lex, artifacts, r);
            && signal.meaningful == Counted(artifacts) && signal.represented + |lost| == Counted(artifacts)
            && signal.unrepresented == if |lost| <= 40 then lost else lost[..40]
  {
    CountsLost(lex, artifacts, r);
  }

  // The i-th extra item has a title that neither the result nor an earlier extra has.
  ghost predicate IsNewItem(lex: Lexicon, primary: seq<Item>, extra: seq<Item>, i: nat)
    requires i < |extra|
  {
    lex.normalize(extra[i].title) == ""
    || (!TitledAlike(lex, extra[i].title, primary) && !TitledAlike(lex, extra[i].title, extra[..i]))
  }

  ghost function NewItems(lex: Lexicon, primary: seq<Item>, extra: seq<Item>): seq<Item> {
    if extra == [] then []
    else
      var n := |extra| - 1;
      NewItems(lex, primary, extra[..n]) + if IsNewItem(lex, primary, extra, n) then [extra[n]] else []
  }

  // The union is what was there and the new items, in their order.
  lemma {:induction false} UnionAddsNew(lex: Lexicon, primary: seq<Item>, extra: seq<Item>)
    ensures UnionByTitle(lex, primary, extra) == primary + NewItems(lex, primary, extra)
  {
    if extra == [] {
      EmptyRight(primary);
    } else {
      var n := |extra| - 1;
      UnionAddsNew(lex, primary, extra[..n]);
      if lex.normalize(extra[n].title) != "" {
        UnionRepresents(lex, primary, extra[..n], lex.normalize(extra[n].title));
        TitlesHave(lex, extra[n].title, primary);
        TitlesHave(lex, extra[n].title, extra[..n]);
      }
      EmptyRight(NewItems(lex, primary, extra[..n]));
      Assoc(primary, NewItems(lex, primary, extra[..n]), [extra[n]]);
    }
  }

  ghost predicate KeyedAlike(key: string -> string, x: string, strings: seq<string>) {
    exists s :: s in strings && Strip(s) != "" && key(Strip(s)) == key(Strip(x))
  }

  // The i-th extra string is not blank, and no string before it has its key.
  ghost predicate IsNewString(key: string -> string, primary: seq<string>, extra: seq<string>, i: nat)
    requires i < |extra|
  {
    Strip(extra[i]) != "" && !KeyedAlike(key, extra[i], primary) && !KeyedAlike(key, extra[i], extra[..i])
  }

  ghost function NewStrings(key: string -> string, primary: seq<string>, extra: seq<string>): seq<string> {
    if extra == [] then []
    else
      var n := |extra| - 1;
      NewStrings(key, primary, extra[..n]) + if IsNewString(key, primary, extra, n) then [extra[n]] else []
  }

  lemma {:induction false} KeysHave(key: string -> string, x: string, strings: seq<string>)
    ensures key(Strip(x)) in StringKeys(key, strings) <==> KeyedAlike(key, x, strings)
  {
    if strings != [] {
      KeysHave(key, x, strings[..|strings| - 1]);
      Whole(strings);
    }
  }

  lemma {:induction false} UnionHasKeys(key: string -> string, primary: seq<string>, extra: seq<string>)
    ensures StringKeys(key, UnionStrings(key, primary, extra)) == StringKeys(key, primary) + StringKeys(key, extra)
  {
    if extra != [] {
      UnionHasKeys(key, primary, extra[..|extra| - 1]);
      Snoc(UnionStrings(key, primary, extra[..|extra| - 1]), extra[|extra| - 1]);
    }
  }

  lemma {:induction false} UnionAddsNewStrings(key: string -> string, primary: seq<string>, extra: seq<string>)
    ensures UnionStrings(key, primary, extra) == primary + NewStrings(key, primary, extra)
  {
    if extra == [] {
      EmptyRight(primary);
    } else {
      var n := |extra| - 1;
      UnionAddsNewStrings(key, primary, extra[..n]);
      UnionHasKeys(key, primary, extra[..n]);
      KeysHave(key, extra[n], primary);
      KeysHave(key, extra[n], extra[..n]);
      EmptyRight(NewStrings(key, primary, extra[..n]));
      Assoc(primary, NewStrings(key, primary, extra[..n]), [extra[n]]);
    }
  }

  // What the repair adds to every list, and that it changes nothing else.
  lemma RepairAdds(lex: Lexicon, key: string -> string, r: FinalResult, artifacts: seq<Artifact>)
    ensures var after := Preserve(lex, key, r, artifacts);
            && after.summary == r.summary && after.topics == r.topics
            && after.tasks == r.tasks + NewItems(lex, r.tasks, ItemsOf(artifacts, TaskKinds))
            && after.notes == r.notes + NewItems(lex, r.notes, ItemsOf(artifacts, NoteKinds))
            && after.decisions == r.decisions + NewItems(lex, r.decisions, ItemsOf(artifacts, DecisionKinds))
            && after.issues == r.issues + NewItems(lex, r.issues, ItemsOf(artifacts, IssueKinds))
            && after.facts == r.facts + NewStrings(key, r.facts, SayingsOf(artifacts, Fact))
            && after.questions == r.questions + NewStrings(key, r.questions, SayingsOf(artifacts, Question))
  {
    CarriedByKind(artifacts, r.summary, r.topics);
    UnionAddsNew(lex, r.tasks, ItemsOf(artifacts, TaskKinds));
    UnionAddsNew(lex, r.notes, ItemsOf(artifacts, NoteKinds));
    UnionAddsNew(lex, r.decisions, ItemsOf(artifacts, DecisionKinds));
    UnionAddsNew(lex, r.issues, ItemsOf(artifacts, IssueKinds));
    UnionAddsNewStrings(key, r.facts, SayingsOf(artifacts, Fact));
    UnionAddsNewStrings(key, r.questions, SayingsOf(artifacts, Question));
  }
}

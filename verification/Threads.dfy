// Grouping model-labelled lines of a transcript into threads
// (services/conversation/semantic_reconstruction.py). The labels are arbitrary.

module Threads {
  import opened Seqs
  import opened Text
  import opened Artifacts

  datatype Role =
    | RFact | RClaim | RExplanation | RDecision | RAction | RCommitment | RRequest | RQuestion | RAnswer | RProblem
    | RSolution | RRequirement | RInstruction | RDefinition | RExample | RImportantPoint | RDisagreement | RConclusion
    | RFollowUp | RDeadline | RAssignment | RReference | RUnresolved

  // A unit as the model labels it, with the roles that are known ones.
  datatype Labelled = Labelled(roles: set<Role>, meaning: string, topic: string, threadKey: string, ids: seq<int>)

  datatype Turn = Turn(sequence: int, text: string, roles: set<Role>, topic: string, meaning: string, threadKey: string)

  datatype Thread = Thread(turns: seq<Turn>, roles: set<Role>, topic: string, threadKey: string)

  // ----- turns

  function TurnsAt(transcript: map<int, string>, u: Labelled, ids: seq<int>): seq<Turn> {
    if ids == [] then []
    else
      var n := ids[|ids| - 1];
      if n in transcript then
        TurnsAt(transcript, u, ids[..|ids| - 1])
        + [Turn(n, transcript[n], u.roles, Collapse(u.topic), Collapse(u.meaning), Collapse(u.threadKey))]
      else TurnsAt(transcript, u, ids[..|ids| - 1])
  }

  function TurnsOf(transcript: map<int, string>, u: Labelled): seq<Turn> {
    if u.roles == {} || Collapse(u.meaning) == "" then [] else TurnsAt(transcript, u, u.ids)
  }

  predicate LexBefore(a: string, b: string) {
    b != "" && (a == "" || a[0] < b[0] || (a[0] == b[0] && LexBefore(a[1..], b[1..])))
  }

  // The order by number, topic and meaning.
  predicate Precedes(a: Turn, b: Turn) {
    a.sequence < b.sequence
    || (a.sequence == b.sequence && (LexBefore(a.topic, b.topic) || (a.topic == b.topic && LexBefore(a.meaning, b.meaning))))
  }

  function InsertTurn(turns: seq<Turn>, t: Turn): seq<Turn> {
    if turns == [] || !Precedes(t, turns[|turns| - 1]) then turns + [t]
    else InsertTurn(turns[..|turns| - 1], t) + [turns[|turns| - 1]]
  }

  function SortTurns(turns: seq<Turn>): seq<Turn> {
    if turns == [] then [] else InsertTurn(SortTurns(turns[..|turns| - 1]), turns[|turns| - 1])
  }

  function CollectTurns(transcript: map<int, string>, units: seq<Labelled>): seq<Turn> {
    if units == [] then []
    else CollectTurns(transcript, units[..|units| - 1]) + TurnsOf(transcript, units[|units| - 1])
  }

  // `_turns_from_semantic_units`
  function TurnsFrom(transcript: map<int, string>, units: seq<Labelled>): seq<Turn> {
    SortTurns(CollectTurns(transcript, units))
  }

  // ----- threads

  // The threads in the order in which their keys first occur.
  datatype Group = Group(key: string, thread: Thread)

  function Sequences(turns: seq<Turn>): set<int> {
    if turns == [] then {} else Sequences(turns[..|turns| - 1]) + {turns[|turns| - 1].sequence}
  }

  function Joined(thread: Thread, t: Turn): Thread {
    Thread(
      if t.sequence in Sequences(thread.turns) then thread.turns else thread.turns + [t],
      thread.roles + t.roles,
      Or(thread.topic, t.topic),
      thread.threadKey)
  }

  function KeptThread(groups: seq<Group>, key: string): Option<Thread> {
    if groups == [] then None
    else if groups[|groups| - 1].key == key then Some(groups[|groups| - 1].thread)
    else KeptThread(groups[..|groups| - 1], key)
  }

  // The thread a turn joins: the one with its key, or a new one.
  function ThreadFor(groups: seq<Group>, key: string, t: Turn): Thread {
    match KeptThread(groups, key) case Some(thread) => thread case None => Thread([], {}, t.topic, t.threadKey)
  }

  function JoinGroup(groups: seq<Group>, key: string, t: Turn): (r: seq<Group>)
    ensures |r| == |groups|
  {
    if groups == [] then []
    else
      var n := |groups| - 1;
      if groups[n].key == key then groups[..n] + [Group(key, Joined(groups[n].thread, t))]
      else JoinGroup(groups[..n], key, t) + [groups[n]]
  }

  function AddTurn(groups: seq<Group>, key: string, t: Turn): seq<Group> {
    if KeptThread(groups, key).Some? then JoinGroup(groups, key, t)
    else groups + [Group(key, Joined(ThreadFor(groups, key, t), t))]
  }

  function IntText(n: int): string {
    if n < 0 then "-" + Decimal(-n) else Decimal(n)
  }

  function KeyOf(normalize: string -> string, t: Turn): string {
    Or(normalize(Or(t.threadKey, t.topic)), "evidence:" + IntText(t.sequence))
  }

  function Grouped(normalize: string -> string, turns: seq<Turn>): seq<Group> {
    if turns == [] then []
    else
      var t := turns[|turns| - 1];
      AddTurn(Grouped(normalize, turns[..|turns| - 1]), KeyOf(normalize, t), t)
  }

  // The threads that have turns and roles.
  function ThreadsOf(groups: seq<Group>): seq<Thread> {
    if groups == [] then []
    else
      var thread := groups[|groups| - 1].thread;
      if thread.turns != [] && thread.roles != {} then ThreadsOf(groups[..|groups| - 1]) + [thread]
      else ThreadsOf(groups[..|groups| - 1])
  }

  // The turns that `reconstruct_window_intelligence` keeps, and their threads.
  predicate IsUsefulTurn(t: Turn) {
    t.roles != {} && t.meaning != ""
  }

  function UsefulTurns(turns: seq<Turn>): seq<Turn> {
    if turns == [] then []
    else if IsUsefulTurn(turns[|turns| - 1]) then UsefulTurns(turns[..|turns| - 1]) + [turns[|turns| - 1]]
    else UsefulTurns(turns[..|turns| - 1])
  }

  function BuildThreads(normalize: string -> string, turns: seq<Turn>): seq<Thread> {
    ThreadsOf(Grouped(normalize, turns))
  }

  method GroupTurns(normalize: string -> string, turns: seq<Turn>) returns (groups: seq<Group>)
    ensures groups == Grouped(normalize, turns)
  {
    groups := [];
    for i := 0 to |turns|
      invariant groups == Grouped(normalize, turns[..i])
    {
      TakeSnoc(turns, i);
      groups := AddTurn(groups, KeyOf(normalize, turns[i]), turns[i]);
    }
    TakeAll(turns);
  }

  // ----- every turn is a line of the transcript

  predicate FromTranscript(t: Turn, transcript: map<int, string>) {
    t.sequence in transcript && t.text == transcript[t.sequence]
  }

  predicate AllFrom(turns: seq<Turn>, transcript: map<int, string>) {
    forall i :: 0 <= i < |turns| ==> FromTranscript(turns[i], transcript)
  }

  predicate AllThreadsFrom(threads: seq<Thread>, transcript: map<int, string>) {
    forall i :: 0 <= i < |threads| ==> AllFrom(threads[i].turns, transcript)
  }

  lemma {:induction false} TurnsAtFrom(transcript: map<int, string>, u: Labelled, ids: seq<int>)
    ensures AllFrom(TurnsAt(transcript, u, ids), transcript)
  {
    if ids != [] {
      TurnsAtFrom(transcript, u, ids[..|ids| - 1]);
    }
  }

  lemma {:induction false} CollectedFrom(transcript: map<int, string>, units: seq<Labelled>)
    ensures AllFrom(CollectTurns(transcript, units), transcript)
  {
    if units != [] {
      CollectedFrom(transcript, units[..|units| - 1]);
      TurnsAtFrom(transcript, units[|units| - 1], units[|units| - 1].ids);
    }
  }

  lemma {:induction false} InsertedFrom(turns: seq<Turn>, t: Turn, transcript: map<int, string>)
    requires AllFrom(turns, transcript) && FromTranscript(t, transcript)
    ensures AllFrom(InsertTurn(turns, t), transcript)
  {
    if turns != [] && Precedes(t, turns[|turns| - 1]) {
      InsertedFrom(turns[..|turns| - 1], t, transcript);
    }
  }

  lemma {:induction false} SortedFrom(turns: seq<Turn>, transcript: map<int, string>)
    requires AllFrom(turns, transcript)
    ensures AllFrom(SortTurns(turns), transcript)
  {
    if turns != [] {
      SortedFrom(turns[..|turns| - 1], transcript);
      InsertedFrom(SortTurns(turns[..|turns| - 1]), turns[|turns| - 1], transcript);
    }
  }

  lemma {:induction false} UsefulFrom(turns: seq<Turn>, transcript: map<int, string>)
    requires AllFrom(turns, transcript)
    ensures AllFrom(UsefulTurns(turns), transcript)
  {
    if turns != [] {
      UsefulFrom(turns[..|turns| - 1], transcript);
    }
  }

  predicate AllGroupsFrom(groups: seq<Group>, transcript: map<int, string>) {
    forall i :: 0 <= i < |groups| ==> AllFrom(groups[i].thread.turns, transcript)
  }

  lemma {:induction false} JoinedFrom(groups: seq<Group>, key: string, t: Turn, transcript: map<int, string>)
    requires AllGroupsFrom(groups, transcript) && FromTranscript(t, transcript)
    ensures AllGroupsFrom(JoinGroup(groups, key, t), transcript)
  {
    if groups != [] && groups[|groups| - 1].key != key {
      JoinedFrom(groups[..|groups| - 1], key, t, transcript);
    }
  }

  lemma {:induction false} GroupedFrom(normalize: string -> string, turns: seq<Turn>, transcript: map<int, string>)
    requires AllFrom(turns, transcript)
    ensures AllGroupsFrom(Grouped(normalize, turns), transcript)
  {
    if turns != [] {
      var init, t := turns[..|turns| - 1], turns[|turns| - 1];
      GroupedFrom(normalize, init, transcript);
      JoinedFrom(Grouped(normalize, init), KeyOf(normalize, t), t, transcript);
    }
  }

  lemma {:induction false} ThreadsFrom(groups: seq<Group>, transcript: map<int, string>)
    requires AllGroupsFrom(groups, transcript)
    ensures AllThreadsFrom(ThreadsOf(groups), transcript)
  {
    if groups != [] {
      ThreadsFrom(groups[..|groups| - 1], transcript);
    }
  }

  function Reconstructed(normalize: string -> string, transcript: map<int, string>, units: seq<Labelled>): seq<Thread> {
    BuildThreads(normalize, UsefulTurns(TurnsFrom(transcript, units)))
  }

  // Whatever the model labels, a thread only holds lines of the transcript.
  lemma ReconstructedFrom(normalize: string -> string, transcript: map<int, string>, units: seq<Labelled>)
    ensures AllThreadsFrom(Reconstructed(normalize, transcript, units), transcript)
  {
    CollectedFrom(transcript, units);
    SortedFrom(CollectTurns(transcript, units), transcript);
    var turns := UsefulTurns(TurnsFrom(transcript, units));
    UsefulFrom(TurnsFrom(transcript, units), transcript);
    GroupedFrom(normalize, turns, transcript);
    ThreadsFrom(Grouped(normalize, turns), transcript);
  }

  // ----- no turn is lost

  lemma {:induction false} JoinedKept(groups: seq<Group>, key: string, t: Turn, other: string)
    requires KeptThread(groups, key).Some?
    ensures KeptThread(JoinGroup(groups, key, t), other) ==
            if other == key then Some(Joined(KeptThread(groups, key).value, t)) else KeptThread(groups, other)
  {
    var init, last := groups[..|groups| - 1], groups[|groups| - 1];
    if last.key == key {
      Snoc(init, Group(key, Joined(last.thread, t)));
    } else {
      JoinedKept(init, key, t, other);
      Snoc(JoinGroup(init, key, t), last);
    }
  }

  lemma AddedKept(groups: seq<Group>, key: string, t: Turn, other: string)
    ensures KeptThread(AddTurn(groups, key, t), other) ==
            if other == key then Some(Joined(ThreadFor(groups, key, t), t)) else KeptThread(groups, other)
  {
    if KeptThread(groups, key).Some? {
      JoinedKept(groups, key, t, other);
    } else {
      Snoc(groups, Group(key, Joined(ThreadFor(groups, key, t), t)));
    }
  }

  predicate Holds(thread: Thread, t: Turn) {
    t.sequence in Sequences(thread.turns) && t.roles <= thread.roles
  }

  predicate HeldUnder(groups: seq<Group>, key: string, t: Turn) {
    KeptThread(groups, key).Some? && Holds(KeptThread(groups, key).value, t)
  }

  lemma JoinHolds(thread: Thread, t: Turn, held: Turn)
    ensures Holds(Joined(thread, t), t)
    ensures Holds(thread, held) ==> Holds(Joined(thread, t), held)
  {
    Snoc(thread.turns, t);
  }

  lemma StillHeld(groups: seq<Group>, key: string, t: Turn, other: string, held: Turn)
    ensures HeldUnder(AddTurn(groups, key, t), key, t)
    ensures HeldUnder(groups, other, held) ==> HeldUnder(AddTurn(groups, key, t), other, held)
  {
    AddedKept(groups, key, t, key);
    AddedKept(groups, key, t, other);
    JoinHolds(ThreadFor(groups, key, t), t, held);
  }

  // Every one of the turns is in the thread of its key, with its number and its roles.
  predicate AllHeld(normalize: string -> string, turns: seq<Turn>, groups: seq<Group>) {
    turns == []
    || (AllHeld(normalize, turns[..|turns| - 1], groups)
        && HeldUnder(groups, KeyOf(normalize, turns[|turns| - 1]), turns[|turns| - 1]))
  }

  lemma {:induction false} AllStillHeld(normalize: string -> string, turns: seq<Turn>, groups: seq<Group>, key: string, t: Turn)
    requires AllHeld(normalize, turns, groups)
    ensures AllHeld(normalize, turns, AddTurn(groups, key, t))
  {
    if turns != [] {
      var last := turns[|turns| - 1];
      AllStillHeld(normalize, turns[..|turns| - 1], groups, key, t);
      StillHeld(groups, key, t, KeyOf(normalize, last), last);
    }
  }

  lemma {:induction false} TurnsAreKept(normalize: string -> string, turns: seq<Turn>)
    ensures AllHeld(normalize, turns, Grouped(normalize, turns))
  {
    if turns != [] {
      var init, t := turns[..|turns| - 1], turns[|turns| - 1];
      TurnsAreKept(normalize, init);
      AllStillHeld(normalize, init, Grouped(normalize, init), KeyOf(normalize, t), t);
      StillHeld(Grouped(normalize, init), KeyOf(normalize, t), t, KeyOf(normalize, t), t);
    }
  }
}

// What the threads hold, said of the labels: one thread for every key, with the
// turns of that key in order.

module ThreadContents {
  import opened Seqs
  import opened Text
  import opened Threads

  // ----- the turns of the labels

  // A label with a known role and a meaning says something of line `n`.
  predicate Gives(u: Labelled, transcript: map<int, string>, n: int) {
    u.roles != {} && Collapse(u.meaning) != "" && n in u.ids && n in transcript
  }

  function TurnAt(u: Labelled, transcript: map<int, string>, n: int): Turn
    requires n in transcript
  {
    Turn(n, transcript[n], u.roles, Collapse(u.topic), Collapse(u.meaning), Collapse(u.threadKey))
  }

  lemma {:induction false} TurnsAtAre(transcript: map<int, string>, u: Labelled, ids: seq<int>, t: Turn)
    ensures t in TurnsAt(transcript, u, ids) <==> t.sequence in ids && t.sequence in transcript && t == TurnAt(u, transcript, t.sequence)
  {
    if ids != [] {
      TurnsAtAre(transcript, u, ids[..|ids| - 1], t);
      Whole(ids);
    }
  }

  lemma TurnsOfAre(transcript: map<int, string>, u: Labelled, t: Turn)
    ensures t in TurnsOf(transcript, u) <==> Gives(u, transcript, t.sequence) && t == TurnAt(u, transcript, t.sequence)
  {
    TurnsAtAre(transcript, u, u.ids, t);
  }

  predicate GivenBy(u: Labelled, transcript: map<int, string>, t: Turn) {
    Gives(u, transcript, t.sequence) && t == TurnAt(u, transcript, t.sequence)
  }

  // Some label gives the turn.
  predicate IsGiven(transcript: map<int, string>, units: seq<Labelled>, t: Turn) {
    units != [] && (GivenBy(units[|units| - 1], transcript, t) || IsGiven(transcript, units[..|units| - 1], t))
  }

  lemma {:induction false} LabelGives(transcript: map<int, string>, units: seq<Labelled>, k: nat, t: Turn)
    requires k < |units| && GivenBy(units[k], transcript, t)
    ensures IsGiven(transcript, units, t)
  {
    if k < |units| - 1 {
      LabelGives(transcript, units[..|units| - 1], k, t);
    }
  }

  lemma {:induction false} SomeLabelGives(transcript: map<int, string>, units: seq<Labelled>, t: Turn) returns (k: nat)
    requires IsGiven(transcript, units, t)
    ensures k < |units| && GivenBy(units[k], transcript, t)
  {
    k := |units| - 1;
    if !GivenBy(units[k], transcript, t) {
      k := SomeLabelGives(transcript, units[..k], t);
    }
  }

  lemma {:induction false} CollectedAre(transcript: map<int, string>, units: seq<Labelled>, t: Turn)
    ensures t in CollectTurns(transcript, units) <==> IsGiven(transcript, units, t)
  {
    if units != [] {
      CollectedAre(transcript, units[..|units| - 1], t);
      TurnsOfAre(transcript, units[|units| - 1], t);
    }
  }

  // ----- sorting loses nothing, and sorts

  lemma {:induction false} InsertedSame(turns: seq<Turn>, t: Turn)
    ensures multiset(InsertTurn(turns, t)) == multiset(turns) + multiset{t}
  {
    if turns != [] {
      Whole(turns);
      if Precedes(t, turns[|turns| - 1]) {
        InsertedSame(turns[..|turns| - 1], t);
      }
    }
  }

  lemma {:induction false} SortedSame(turns: seq<Turn>)
    ensures multiset(SortTurns(turns)) == multiset(turns)
  {
    if turns != [] {
      SortedSame(turns[..|turns| - 1]);
      InsertedSame(SortTurns(turns[..|turns| - 1]), turns[|turns| - 1]);
      Whole(turns);
    }
  }

  lemma {:induction false} LexIsTotal(a: string, b: string)
    ensures LexBefore(a, b) || a == b || LexBefore(b, a)
    ensures !(LexBefore(a, b) && LexBefore(b, a)) && !LexBefore(a, a)
  {
    if a != "" && b != "" && a[0] == b[0] {
      LexIsTotal(a[1..], b[1..]);
      assert a == [a[0]] + a[1..] && b == [b[0]] + b[1..];
    }
    if a != "" {
      LexIsTotal(a[1..], a[1..]);
    }
  }

  lemma {:induction false} LexIsTransitive(a: string, b: string, c: string)
    requires LexBefore(a, b) && LexBefore(b, c)
    ensures LexBefore(a, c)
  {
    if a != "" && a[0] == b[0] && b[0] == c[0] {
      LexIsTransitive(a[1..], b[1..], c[1..]);
    }
  }

  lemma PrecedesIsTransitive(a: Turn, b: Turn, c: Turn)
    requires !Precedes(b, a) && !Precedes(c, b)
    ensures !Precedes(c, a)
  {
    LexIsTotal(a.topic, b.topic);
    LexIsTotal(b.topic, c.topic);
    LexIsTotal(a.topic, c.topic);
    LexIsTotal(a.meaning, b.meaning);
    LexIsTotal(b.meaning, c.meaning);
    LexIsTotal(a.meaning, c.meaning);
    if LexBefore(a.topic, b.topic) && LexBefore(b.topic, c.topic) {
      LexIsTransitive(a.topic, b.topic, c.topic);
    }
    if LexBefore(a.meaning, b.meaning) && LexBefore(b.meaning, c.meaning) {
      LexIsTransitive(a.meaning, b.meaning, c.meaning);
    }
  }

  lemma PrecedesIsStrict(a: Turn, b: Turn)
    ensures !(Precedes(a, b) && Precedes(b, a))
  {
    LexIsTotal(a.topic, b.topic);
    LexIsTotal(a.meaning, b.meaning);
  }

  // By number, then by topic, then by meaning.
  predicate InRank(turns: seq<Turn>) {
    forall i, j :: 0 <= i < j < |turns| ==> !Precedes(turns[j], turns[i])
  }

  lemma {:induction false} InsertedInRank(turns: seq<Turn>, t: Turn)
    requires InRank(turns)
    ensures InRank(InsertTurn(turns, t))
    ensures forall s :: s in InsertTurn(turns, t) ==> s in turns || s == t
  {
    if turns != [] {
      var init, last := turns[..|turns| - 1], turns[|turns| - 1];
      if Precedes(t, last) {
        InsertedInRank(init, t);
        PrecedesIsStrict(t, last);
        forall s | s in InsertTurn(init, t)
          ensures !Precedes(last, s)
        {
          assert s == t || s in init;
        }
      } else {
        forall i | 0 <= i < |turns|
          ensures !Precedes(t, turns[i])
        {
          if i < |turns| - 1 {
            PrecedesIsTransitive(turns[i], last, t);
          }
        }
      }
    }
  }

  lemma {:induction false} SortedInRank(turns: seq<Turn>)
    ensures InRank(SortTurns(turns))
  {
    if turns != [] {
      SortedInRank(turns[..|turns| - 1]);
      InsertedInRank(SortTurns(turns[..|turns| - 1]), turns[|turns| - 1]);
    }
  }

  // Turns of the same number, topic and meaning stay in the order of the labels.
  function Alike(turns: seq<Turn>, t: Turn): seq<Turn> {
    if turns == [] then []
    else
      var last := turns[|turns| - 1];
      if last.sequence == t.sequence && last.topic == t.topic && last.meaning == t.meaning then Alike(turns[..|turns| - 1], t) + [last]
      else Alike(turns[..|turns| - 1], t)
  }

  lemma {:induction false} InsertedAlike(turns: seq<Turn>, x: Turn, t: Turn)
    ensures Alike(InsertTurn(turns, x), t) == Alike(turns + [x], t)
  {
    Snoc(turns, x);
    if turns != [] && Precedes(x, turns[|turns| - 1]) {
      var init, last := turns[..|turns| - 1], turns[|turns| - 1];
      InsertedAlike(init, x, t);
      Snoc(init, x);
      Snoc(InsertTurn(init, x), last);
      LexIsTotal(x.topic, last.topic);
      LexIsTotal(x.meaning, last.meaning);
    }
  }

  lemma {:induction false} SortedAlike(turns: seq<Turn>, t: Turn)
    ensures Alike(SortTurns(turns), t) == Alike(turns, t)
  {
    if turns != [] {
      var init, last := turns[..|turns| - 1], turns[|turns| - 1];
      SortedAlike(init, t);
      InsertedAlike(SortTurns(init), last, t);
      Snoc(SortTurns(init), last);
    }
  }

  // ----- the key of a turn

  function NameOf(t: Turn): string {
    if t.threadKey != "" then t.threadKey else t.topic
  }

  lemma IntTextApart(a: int, b: int)
    ensures IntText(a) == IntText(b) ==> a == b
  {
    var x, y: nat := if a < 0 then -a else a, if b < 0 then -b else b;
    DecimalRoundTrip(x);
    DecimalRoundTrip(y);
    assert IsDigit(Decimal(x)[0]) && IsDigit(Decimal(y)[0]);
    if IntText(a) == IntText(b) {
      assert a < 0 <==> IntText(a)[0] == '-';
      assert b < 0 <==> IntText(b)[0] == '-';
      if a < 0 {
        assert IntText(a)[1..] == Decimal(x) && IntText(b)[1..] == Decimal(y);
      }
    }
  }

  // Named turns stand together when their names are alike; a turn without a name
  // stands with the turns of its own line that have none.
  lemma KeysAre(normalize: string -> string, a: Turn, b: Turn)
    ensures normalize(NameOf(a)) != "" ==> KeyOf(normalize, a) == normalize(NameOf(a))
    ensures normalize(NameOf(a)) == "" && normalize(NameOf(b)) == "" ==>
              (KeyOf(normalize, a) == KeyOf(normalize, b) <==> a.sequence == b.sequence)
    ensures normalize(NameOf(a)) == "" ==> KeyOf(normalize, a) == "evidence:" + IntText(a.sequence)
  {
    IntTextApart(a.sequence, b.sequence);
    var x, y, start := IntText(a.sequence), IntText(b.sequence), "evidence:";
    assert (start + x)[|start|..] == x && (start + y)[|start|..] == y;
  }

  // ----- one thread for every key

  function OfKey(normalize: string -> string, turns: seq<Turn>, key: string): seq<Turn> {
    if turns == [] then []
    else if KeyOf(normalize, turns[|turns| - 1]) == key then OfKey(normalize, turns[..|turns| - 1], key) + [turns[|turns| - 1]]
    else OfKey(normalize, turns[..|turns| - 1], key)
  }

  // The first turn of every number.
  function FirstTurns(turns: seq<Turn>): seq<Turn> {
    if turns == [] then []
    else if turns[|turns| - 1].sequence in Sequences(turns[..|turns| - 1]) then FirstTurns(turns[..|turns| - 1])
    else FirstTurns(turns[..|turns| - 1]) + [turns[|turns| - 1]]
  }

  function AllRoles(turns: seq<Turn>): set<Role> {
    if turns == [] then {} else AllRoles(turns[..|turns| - 1]) + turns[|turns| - 1].roles
  }

  // The first topic that is not empty.
  function FirstTopic(turns: seq<Turn>): string {
    if turns == [] then ""
    else if FirstTopic(turns[..|turns| - 1]) != "" then FirstTopic(turns[..|turns| - 1])
    else turns[|turns| - 1].topic
  }

  function ThreadOf(turns: seq<Turn>): Thread
    requires turns != []
  {
    Thread(FirstTurns(turns), AllRoles(turns), FirstTopic(turns), turns[0].threadKey)
  }

  lemma {:induction false} FirstNumbers(turns: seq<Turn>)
    ensures Sequences(FirstTurns(turns)) == Sequences(turns)
  {
    if turns != [] {
      FirstNumbers(turns[..|turns| - 1]);
      Snoc(FirstTurns(turns[..|turns| - 1]), turns[|turns| - 1]);
    }
  }

  lemma FirstOfKey(t: Turn)
    ensures ThreadOf([t]) == Joined(Thread([], {}, t.topic, t.threadKey), t)
  {
    assert [t][..0] == [] && [] + [t] == [t];
    assert FirstTurns([t]) == [t] && AllRoles([t]) == {} + t.roles && FirstTopic([t]) == t.topic;
  }

  lemma NextOfKey(turns: seq<Turn>, t: Turn)
    requires turns != []
    ensures ThreadOf(turns + [t]) == Joined(ThreadOf(turns), t)
  {
    Snoc(turns, t);
    FirstNumbers(turns);
  }

  // The thread of a key holds the turns of that key, and nothing else.
  lemma {:induction false} ThreadIsOfKey(normalize: string -> string, turns: seq<Turn>, key: string)
    ensures KeptThread(Grouped(normalize, turns), key) ==
            if OfKey(normalize, turns, key) == [] then None else Some(ThreadOf(OfKey(normalize, turns, key)))
  {
    if turns != [] {
      var init, t := turns[..|turns| - 1], turns[|turns| - 1];
      ThreadIsOfKey(normalize, init, key);
      AddedKept(Grouped(normalize, init), KeyOf(normalize, t), t, key);
      if KeyOf(normalize, t) == key {
        if OfKey(normalize, init, key) == [] {
          FirstOfKey(t);
        } else {
          NextOfKey(OfKey(normalize, init, key), t);
        }
      }
    }
  }

  // ----- the list of threads

  // No two groups have the same key.
  predicate KeysDiffer(groups: seq<Group>) {
    forall i, j :: 0 <= i < j < |groups| ==> groups[i].key != groups[j].key
  }

  lemma {:induction false} JoinKeepsKeys(groups: seq<Group>, key: string, t: Turn, i: nat)
    requires i < |groups|
    ensures JoinGroup(groups, key, t)[i].key == groups[i].key
  {
    if groups[|groups| - 1].key != key && i < |groups| - 1 {
      JoinKeepsKeys(groups[..|groups| - 1], key, t, i);
    }
  }

  lemma {:induction false} KeptIsThere(groups: seq<Group>, key: string)
    ensures KeptThread(groups, key).Some? <==> exists i :: 0 <= i < |groups| && groups[i].key == key
  {
    if groups != [] {
      var init := groups[..|groups| - 1];
      KeptIsThere(init, key);
      if exists i :: 0 <= i < |init| && init[i].key == key {
        var i :| 0 <= i < |init| && init[i].key == key;
        assert groups[i].key == key;
      }
      if exists i :: 0 <= i < |groups| && groups[i].key == key {
        var i :| 0 <= i < |groups| && groups[i].key == key;
        assert i < |init| ==> init[i].key == key;
      }
    }
  }

  lemma {:induction false} GroupedKeysDiffer(normalize: string -> string, turns: seq<Turn>)
    ensures KeysDiffer(Grouped(normalize, turns))
  {
    if turns != [] {
      var groups, t := Grouped(normalize, turns[..|turns| - 1]), turns[|turns| - 1];
      GroupedKeysDiffer(normalize, turns[..|turns| - 1]);
      KeptIsThere(groups, KeyOf(normalize, t));
      forall i | 0 <= i < |groups| && KeptThread(groups, KeyOf(normalize, t)).Some?
        ensures JoinGroup(groups, KeyOf(normalize, t), t)[i].key == groups[i].key
      {
        JoinKeepsKeys(groups, KeyOf(normalize, t), t, i);
      }
    }
  }

  lemma {:induction false} KeptAt(groups: seq<Group>, i: nat)
    requires KeysDiffer(groups) && i < |groups|
    ensures KeptThread(groups, groups[i].key) == Some(groups[i].thread)
  {
    if i < |groups| - 1 {
      KeptAt(groups[..|groups| - 1], i);
    }
  }

  // A group stands in the list if its thread has turns and roles.
  lemma {:induction false} ThreadsOfAre(groups: seq<Group>, thread: Thread)
    ensures thread in ThreadsOf(groups) <==>
            thread.turns != [] && thread.roles != {} && exists i :: 0 <= i < |groups| && groups[i].thread == thread
  {
    if groups != [] {
      var init := groups[..|groups| - 1];
      ThreadsOfAre(init, thread);
      if exists i :: 0 <= i < |init| && init[i].thread == thread {
        var i :| 0 <= i < |init| && init[i].thread == thread;
        assert groups[i].thread == thread;
      }
      if exists i :: 0 <= i < |groups| && groups[i].thread == thread {
        var i :| 0 <= i < |groups| && groups[i].thread == thread;
        assert i < |init| ==> init[i].thread == thread;
      }
    }
  }

  // ----- the reconstruction

  lemma GivenIsUseful(transcript: map<int, string>, units: seq<Labelled>, t: Turn)
    requires IsGiven(transcript, units, t)
    ensures IsUsefulTurn(t)
  {
    var k := SomeLabelGives(transcript, units, t);
  }

  lemma {:induction false} AllUseful(turns: seq<Turn>)
    requires forall t :: t in turns ==> IsUsefulTurn(t)
    ensures UsefulTurns(turns) == turns
  {
    if turns != [] {
      Whole(turns);
      AllUseful(turns[..|turns| - 1]);
    }
  }

  // The turns are exactly those the labels give, in their order, and all are useful.
  lemma TurnsAreGiven(transcript: map<int, string>, units: seq<Labelled>)
    ensures var turns := TurnsFrom(transcript, units);
            && InRank(turns) && UsefulTurns(turns) == turns
            && forall t :: t in turns <==> IsGiven(transcript, units, t)
  {
    var collected, turns := CollectTurns(transcript, units), TurnsFrom(transcript, units);
    SortedInRank(collected);
    SortedSame(collected);
    forall t: Turn
      ensures t in turns <==> IsGiven(transcript, units, t)
    {
      CollectedAre(transcript, units, t);
      assert t in turns <==> t in multiset(turns);
      assert t in collected <==> t in multiset(collected);
    }
    forall t | t in turns
      ensures IsUsefulTurn(t)
    {
      GivenIsUseful(transcript, units, t);
    }
    AllUseful(turns);
  }

  lemma {:induction false} OfKeyHas(normalize: string -> string, turns: seq<Turn>, key: string, t: Turn)
    ensures t in OfKey(normalize, turns, key) <==> t in turns && KeyOf(normalize, t) == key
  {
    if turns != [] {
      OfKeyHas(normalize, turns[..|turns| - 1], key, t);
      Whole(turns);
    }
  }

  lemma {:induction false} SequencesHave(turns: seq<Turn>, n: int)
    ensures n in Sequences(turns) <==> exists i :: 0 <= i < |turns| && turns[i].sequence == n
  {
    if turns != [] {
      var init := turns[..|turns| - 1];
      SequencesHave(init, n);
      if exists i :: 0 <= i < |init| && init[i].sequence == n {
        var i :| 0 <= i < |init| && init[i].sequence == n;
        assert turns[i].sequence == n;
      }
      if exists i :: 0 <= i < |turns| && turns[i].sequence == n {
        var i :| 0 <= i < |turns| && turns[i].sequence == n;
        assert i < |init| ==> init[i].sequence == n;
      }
    }
  }

  lemma {:induction false} RolesOfAll(turns: seq<Turn>, t: Turn)
    requires t in turns
    ensures t.roles <= AllRoles(turns)
  {
    Whole(turns);
    if t in turns[..|turns| - 1] {
      RolesOfAll(turns[..|turns| - 1], t);
    }
  }

  lemma OfKeyIsThread(turns: seq<Turn>)
    requires turns != [] && forall t :: t in turns ==> IsUsefulTurn(t)
    ensures ThreadOf(turns).turns != [] && ThreadOf(turns).roles != {}
  {
    assert turns[0] in turns;
    RolesOfAll(turns, turns[0]);
    FirstNumbers(turns);
    SequencesHave(turns, turns[0].sequence);
    var role :| role in turns[0].roles;
    assert role in ThreadOf(turns).roles;
  }

  // The threads are exactly those of the keys that occur.
  lemma ThreadsAre(normalize: string -> string, transcript: map<int, string>, units: seq<Labelled>, thread: Thread)
    ensures var turns := TurnsFrom(transcript, units);
            thread in Reconstructed(normalize, transcript, units) <==>
                      exists key :: OfKey(normalize, turns, key) != [] && thread == ThreadOf(OfKey(normalize, turns, key))
  {
    var turns := TurnsFrom(transcript, units);
    var groups := Grouped(normalize, turns);
    TurnsAreGiven(transcript, units);
    ThreadsOfAre(groups, thread);
    GroupedKeysDiffer(normalize, turns);
    if thread in Reconstructed(normalize, transcript, units) {
      var i :| 0 <= i < |groups| && groups[i].thread == thread;
      KeptAt(groups, i);
      ThreadIsOfKey(normalize, turns, groups[i].key);
    }
    if exists key :: OfKey(normalize, turns, key) != [] && thread == ThreadOf(OfKey(normalize, turns, key)) {
      var key :| OfKey(normalize, turns, key) != [] && thread == ThreadOf(OfKey(normalize, turns, key));
      KeyIsListed(normalize, transcript, units, key);
    }
  }

  lemma KeyIsListed(normalize: string -> string, transcript: map<int, string>, units: seq<Labelled>, key: string)
    requires OfKey(normalize, TurnsFrom(transcript, units), key) != []
    ensures ThreadOf(OfKey(normalize, TurnsFrom(transcript, units), key)) in Reconstructed(normalize, transcript, units)
  {
    var turns := TurnsFrom(transcript, units);
    var mine, groups := OfKey(normalize, turns, key), Grouped(normalize, turns);
    TurnsAreGiven(transcript, units);
    forall t | t in mine
      ensures IsUsefulTurn(t)
    {
      OfKeyHas(normalize, turns, key, t);
      GivenIsUseful(transcript, units, t);
    }
    OfKeyIsThread(mine);
    ThreadIsOfKey(normalize, turns, key);
    KeptIsThere(groups, key);
    GroupedKeysDiffer(normalize, turns);
    var i :| 0 <= i < |groups| && groups[i].key == key;
    KeptAt(groups, i);
    ThreadsOfAre(groups, ThreadOf(mine));
  }

  // Every line that a label names is in the thread of the label's key, with the
  // label's roles.
  lemma LabelIsHeld(normalize: string -> string, transcript: map<int, string>, units: seq<Labelled>, k: nat, n: int)
    returns (thread: Thread)
    requires k < |units| && Gives(units[k], transcript, n)
    ensures thread in Reconstructed(normalize, transcript, units)
    ensures n in Sequences(thread.turns) && units[k].roles <= thread.roles
    ensures var turns := OfKey(normalize, TurnsFrom(transcript, units), KeyOf(normalize, TurnAt(units[k], transcript, n)));
            TurnAt(units[k], transcript, n) in turns && thread == ThreadOf(turns)
  {
    var t := TurnAt(units[k], transcript, n);
    var turns := OfKey(normalize, TurnsFrom(transcript, units), KeyOf(normalize, t));
    TurnsAreGiven(transcript, units);
    LabelGives(transcript, units, k, t);
    OfKeyHas(normalize, TurnsFrom(transcript, units), KeyOf(normalize, t), t);
    KeyIsListed(normalize, transcript, units, KeyOf(normalize, t));
    thread := ThreadOf(turns);
    RolesOfAll(turns, t);
    FirstNumbers(turns);
    SequencesHave(turns, n);
  }

  // No turn before it has its number.
  predicate IsFirstAt(turns: seq<Turn>, i: nat) {
    i < |turns| && forall j :: 0 <= j < i ==> turns[j].sequence != turns[i].sequence
  }

  lemma {:induction false} FirstTurnIsFirst(turns: seq<Turn>, t: Turn) returns (i: nat)
    requires t in FirstTurns(turns)
    ensures IsFirstAt(turns, i) && turns[i] == t
  {
    var n := |turns| - 1;
    if t in FirstTurns(turns[..n]) {
      i := FirstTurnIsFirst(turns[..n], t);
      FirstInPrefix(turns, n, i);
    } else {
      i := n;
      SequencesHave(turns[..n], t.sequence);
      assert forall j :: 0 <= j < n ==> turns[..n][j] == turns[j];
    }
  }

  lemma FirstInPrefix(turns: seq<Turn>, n: nat, i: nat)
    requires i < n <= |turns|
    ensures IsFirstAt(turns[..n], i) <==> IsFirstAt(turns, i)
  {
    assert forall j :: 0 <= j < n ==> turns[..n][j] == turns[j];
  }

  lemma {:induction false} FirstIsFirstTurn(turns: seq<Turn>, i: nat)
    requires IsFirstAt(turns, i)
    ensures turns[i] in FirstTurns(turns)
  {
    var n := |turns| - 1;
    if i < n {
      FirstInPrefix(turns, n, i);
      FirstIsFirstTurn(turns[..n], i);
    } else {
      SequencesHave(turns[..n], turns[n].sequence);
      assert forall j :: 0 <= j < n ==> turns[..n][j] == turns[j];
    }
  }
}

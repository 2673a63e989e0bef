// Listing chat sessions page by page with a key cursor
// (services/chat/repository.py and services/chat/service.py).

module ChatPaging {
  import opened Seqs
  import opened Text

  // `updatedAt` in milliseconds, `id` as the database orders its identifiers.
  datatype Session = Session(user: nat, space: Option<nat>, meeting: Option<nat>, updatedAt: int, id: nat, title: string)

  datatype Query = Query(user: nat, space: Option<nat>, meeting: Option<nat>)

  // The decoded cursor: the key of the last session of a page.
  datatype Cursor = Cursor(updatedAt: int, id: nat)

  datatype Page = Page(chats: seq<Session>, next: Option<Cursor>, hasMore: bool)

  predicate Matches(s: Session, q: Query) {
    s.user == q.user && s.meeting == q.meeting && (q.space.Some? ==> s.space == q.space)
  }

  function KeyOf(s: Session): Cursor {
    Cursor(s.updatedAt, s.id)
  }

  // Later in the listing: older, or of the same time with a smaller identifier.
  predicate Follows(s: Session, c: Cursor) {
    s.updatedAt < c.updatedAt || (s.updatedAt == c.updatedAt && s.id < c.id)
  }

  predicate AfterCursor(s: Session, cursor: Option<Cursor>) {
    cursor.Some? ==> Follows(s, cursor.value)
  }

  function Matching(sessions: seq<Session>, q: Query, cursor: Option<Cursor>): seq<Session> {
    if sessions == [] then []
    else
      var init, s := Matching(sessions[..|sessions| - 1], q, cursor), sessions[|sessions| - 1];
      if Matches(s, q) && AfterCursor(s, cursor) then init + [s] else init
  }

  // Sorted by time and identifier, both descending.
  function Insert(list: seq<Session>, s: Session): seq<Session> {
    if list == [] || Follows(s, KeyOf(list[|list| - 1])) then list + [s]
    else Insert(list[..|list| - 1], s) + [list[|list| - 1]]
  }

  function Sorted(list: seq<Session>): seq<Session> {
    if list == [] then [] else Insert(Sorted(list[..|list| - 1]), list[|list| - 1])
  }

  // What is left to list behind a cursor.
  function Remaining(sessions: seq<Session>, q: Query, cursor: Option<Cursor>): seq<Session> {
    Sorted(Matching(sessions, q, cursor))
  }

  // `list_sessions`
  function ListSessions(sessions: seq<Session>, q: Query, limit: nat, cursor: Option<Cursor>): seq<Session> {
    var all := Remaining(sessions, q, cursor);
    if |all| > limit then all[..limit] else all
  }

  function PageSize(limit: int): (n: nat)
    ensures 1 <= n <= 100
  {
    if limit > 100 then 100 else if limit < 1 then 1 else limit
  }

  // `list_chats`
  function ListChats(sessions: seq<Session>, q: Query, limit: int, cursor: Option<Cursor>): Page {
    var size := PageSize(limit);
    var found := ListSessions(sessions, q, size + 1, cursor);
    var visible := if |found| > size then found[..size] else found;
    Page(visible, if |found| > size then Some(KeyOf(visible[|visible| - 1])) else None, |found| > size)
  }

  // ----- the listing is one list

  predicate Distinct(sessions: seq<Session>) {
    forall i, j :: 0 <= i < j < |sessions| ==> sessions[i].id != sessions[j].id
  }

  predicate Descending(list: seq<Session>) {
    forall i, j :: 0 <= i < j < |list| ==> Follows(list[j], KeyOf(list[i]))
  }

  predicate AllBefore(list: seq<Session>, s: Session) {
    forall i :: 0 <= i < |list| ==> Follows(s, KeyOf(list[i]))
  }

  predicate NotAmong(s: Session, list: seq<Session>) {
    forall i :: 0 <= i < |list| ==> list[i].id != s.id
  }

  lemma {:induction false} InsertDescends(list: seq<Session>, s: Session)
    requires Descending(list) && NotAmong(s, list)
    ensures Descending(Insert(list, s))
    ensures forall t :: t in Insert(list, s) ==> t in list || t == s
  {
    if list != [] && !Follows(s, KeyOf(list[|list| - 1])) {
      var init, last := list[..|list| - 1], list[|list| - 1];
      InsertDescends(init, s);
      var inner := Insert(init, s);
      forall i | 0 <= i < |inner|
        ensures Follows(last, KeyOf(inner[i]))
      {
        assert inner[i] in init || inner[i] == s;
      }
    }
  }

  lemma {:induction false} InsertOnce(list: seq<Session>, s: Session)
    ensures multiset(Insert(list, s)) == multiset(list) + multiset{s}
  {
    if list != [] && !Follows(s, KeyOf(list[|list| - 1])) {
      Whole(list);
      InsertOnce(list[..|list| - 1], s);
    }
  }

  lemma {:induction false} SortedDescends(list: seq<Session>)
    requires Distinct(list)
    ensures Descending(Sorted(list)) && multiset(Sorted(list)) == multiset(list)
  {
    if list != [] {
      var init, s := list[..|list| - 1], list[|list| - 1];
      SortedDescends(init);
      Whole(list);
      InsertOnce(Sorted(init), s);
      forall i | 0 <= i < |Sorted(init)|
        ensures Sorted(init)[i].id != s.id
      {
        assert Sorted(init)[i] in multiset(init);
      }
      InsertDescends(Sorted(init), s);
    }
  }

  // What follows a cursor in a list.
  function Behind(list: seq<Session>, cursor: Option<Cursor>): seq<Session> {
    if list == [] then []
    else if AfterCursor(list[|list| - 1], cursor) then Behind(list[..|list| - 1], cursor) + [list[|list| - 1]]
    else Behind(list[..|list| - 1], cursor)
  }

  lemma {:induction false} BehindKeepsBefore(list: seq<Session>, cursor: Option<Cursor>, s: Session)
    requires AllBefore(list, s)
    ensures AllBefore(Behind(list, cursor), s)
  {
    if list != [] {
      BehindKeepsBefore(list[..|list| - 1], cursor, s);
    }
  }

  lemma LastIsLeast(list: seq<Session>, s: Session)
    requires list != [] && Descending(list) && Follows(s, KeyOf(list[|list| - 1]))
    ensures AllBefore(list, s)
  {
  }

  // Filtering and sorting may be exchanged.
  lemma {:induction false} InsertBehind(list: seq<Session>, s: Session, cursor: Option<Cursor>)
    requires Descending(list)
    ensures Behind(Insert(list, s), cursor) ==
            if AfterCursor(s, cursor) then Insert(Behind(list, cursor), s) else Behind(list, cursor)
  {
    if list == [] {
      assert Behind([s], cursor) == if AfterCursor(s, cursor) then Behind([], cursor) + [s] else Behind([], cursor);
    } else if Follows(s, KeyOf(list[|list| - 1])) {
      Snoc(list, s);
      LastIsLeast(list, s);
      BehindKeepsBefore(list, cursor, s);
    } else {
      var init, last := list[..|list| - 1], list[|list| - 1];
      InsertBehind(init, s, cursor);
      Snoc(Insert(init, s), last);
      Snoc(Behind(init, cursor), last);
    }
  }

  lemma DistinctInit(list: seq<Session>)
    requires Distinct(list) && list != []
    ensures Distinct(list[..|list| - 1])
  {
  }

  lemma {:induction false} MatchingDistinct(sessions: seq<Session>, q: Query, cursor: Option<Cursor>)
    requires Distinct(sessions)
    ensures Distinct(Matching(sessions, q, cursor))
    ensures forall s :: s in Matching(sessions, q, cursor) <==> s in sessions && Matches(s, q) && AfterCursor(s, cursor)
  {
    if sessions != [] {
      var init, s := sessions[..|sessions| - 1], sessions[|sessions| - 1];
      MatchingDistinct(init, q, cursor);
      Whole(sessions);
      var found := Matching(init, q, cursor);
      forall i | 0 <= i < |found|
        ensures found[i].id != s.id
      {
        assert found[i] in init;
      }
    }
  }

  // What remains behind a cursor is the part of the whole listing that follows it.
  lemma {:induction false} RemainingIsBehind(sessions: seq<Session>, q: Query, cursor: Option<Cursor>)
    requires Distinct(sessions)
    ensures Remaining(sessions, q, cursor) == Behind(Remaining(sessions, q, None), cursor)
  {
    if sessions != [] {
      var init, s := sessions[..|sessions| - 1], sessions[|sessions| - 1];
      DistinctInit(sessions);
      RemainingIsBehind(init, q, cursor);
      MatchingDistinct(init, q, None);
      SortedDescends(Matching(init, q, None));
      if Matches(s, q) {
        Snoc(Matching(init, q, None), s);
        Snoc(Matching(init, q, cursor), s);
        InsertBehind(Remaining(init, q, None), s, cursor);
      }
    }
  }

  // Behind the key of one element of a descending list come the elements after it.
  lemma {:induction false} BehindElement(list: seq<Session>, i: nat)
    requires Descending(list) && i < |list|
    ensures Behind(list, Some(KeyOf(list[i]))) == list[i + 1..]
  {
    var n := |list| - 1;
    if i < n {
      BehindElement(list[..n], i);
      assert list[i + 1..] == list[..n][i + 1..] + [list[n]];
    } else {
      NothingBehind(list[..n], list[n]);
    }
  }

  lemma {:induction false} NothingBehind(list: seq<Session>, s: Session)
    requires AllBefore(list, s)
    ensures Behind(list, Some(KeyOf(s))) == []
  {
    if list != [] {
      NothingBehind(list[..|list| - 1], s);
    }
  }

  lemma PageIsPrefix(sessions: seq<Session>, q: Query, limit: int, cursor: Option<Cursor>)
    ensures var page, all, size := ListChats(sessions, q, limit, cursor), Remaining(sessions, q, cursor), PageSize(limit);
            if |all| > size then page == Page(all[..size], Some(KeyOf(all[size - 1])), true) else page == Page(all, None, false)
  {
    var all, size := Remaining(sessions, q, cursor), PageSize(limit);
    if |all| > size {
      TakeTake(all, size, size + 1);
    }
  }

  lemma MemberFollows(sessions: seq<Session>, q: Query, cursor: Option<Cursor>, i: nat)
    requires Distinct(sessions) && i < |Remaining(sessions, q, cursor)|
    ensures AfterCursor(Remaining(sessions, q, cursor)[i], cursor)
  {
    var s := Remaining(sessions, q, cursor)[i];
    RemainsSorted(sessions, q, cursor);
    MatchingDistinct(sessions, q, cursor);
    assert s in multiset(Remaining(sessions, q, cursor));
    assert s in Matching(sessions, q, cursor);
  }

  lemma RestBehind(sessions: seq<Session>, q: Query, cursor: Option<Cursor>, i: nat)
    requires Distinct(sessions) && i < |Remaining(sessions, q, cursor)|
    ensures var all := Remaining(sessions, q, cursor); Remaining(sessions, q, Some(KeyOf(all[i]))) == all[i + 1..]
  {
    var all := Remaining(sessions, q, cursor);
    RemainingIsBehind(sessions, q, cursor);
    RemainingIsBehind(sessions, q, Some(KeyOf(all[i])));
    RemainsSorted(sessions, q, cursor);
    MemberFollows(sessions, q, cursor, i);
    BehindTwice(Remaining(sessions, q, None), cursor, all[i]);
    BehindElement(all, i);
  }

  // The cursor of a page leads to the rest of what its own cursor leads to.
  lemma NextPage(sessions: seq<Session>, q: Query, limit: int, cursor: Option<Cursor>)
    requires Distinct(sessions)
    ensures var page, all := ListChats(sessions, q, limit, cursor), Remaining(sessions, q, cursor);
            && page.hasMore == page.next.Some? == (|all| > PageSize(limit))
            && (if page.next.Some? then page.chats + Remaining(sessions, q, page.next) == all else page.chats == all)
            && (page.next.Some? ==> |page.chats| == PageSize(limit))
            && |page.chats| <= (if limit < 1 then 1 else if limit > 100 then 100 else limit)
            && (page.hasMore ==> |page.chats| == if limit < 1 then 1 else if limit > 100 then 100 else limit)
  {
    var all, size := Remaining(sessions, q, cursor), PageSize(limit);
    PageIsPrefix(sessions, q, limit, cursor);
    if |all| > size {
      RestBehind(sessions, q, cursor, size - 1);
      Cut(all, size);
    }
  }

  lemma RemainsSorted(sessions: seq<Session>, q: Query, cursor: Option<Cursor>)
    requires Distinct(sessions)
    ensures Descending(Remaining(sessions, q, cursor))
    ensures multiset(Remaining(sessions, q, cursor)) == multiset(Matching(sessions, q, cursor))
  {
    MatchingDistinct(sessions, q, cursor);
    SortedDescends(Matching(sessions, q, cursor));
  }

  // A second cursor behind the first one is all that counts.
  lemma {:induction false} BehindTwice(list: seq<Session>, cursor: Option<Cursor>, s: Session)
    requires AfterCursor(s, cursor)
    ensures Behind(Behind(list, cursor), Some(KeyOf(s))) == Behind(list, Some(KeyOf(s)))
  {
    if list != [] {
      BehindTwice(list[..|list| - 1], cursor, s);
      Snoc(Behind(list[..|list| - 1], cursor), list[|list| - 1]);
    }
  }

  // All pages from a cursor on, one after the other, until there is no next cursor.
  function AllPages(sessions: seq<Session>, q: Query, limit: int, cursor: Option<Cursor>): seq<Session>
    requires Distinct(sessions)
    decreases |Remaining(sessions, q, cursor)|
  {
    var page := ListChats(sessions, q, limit, cursor);
    NextPage(sessions, q, limit, cursor);
    if page.next.None? then page.chats else page.chats + AllPages(sessions, q, limit, page.next)
  }

  lemma {:induction false} PagesAreTheRest(sessions: seq<Session>, q: Query, limit: int, cursor: Option<Cursor>)
    requires Distinct(sessions)
    ensures AllPages(sessions, q, limit, cursor) == Remaining(sessions, q, cursor)
    decreases |Remaining(sessions, q, cursor)|
  {
    var page := ListChats(sessions, q, limit, cursor);
    NextPage(sessions, q, limit, cursor);
    if page.next.Some? {
      PagesAreTheRest(sessions, q, limit, page.next);
    }
  }

  // Following the cursors from the first page lists every matching session once,
  // the latest first, whatever the page size.
  lemma PagingListsEverything(sessions: seq<Session>, q: Query, limit: int)
    requires Distinct(sessions)
    ensures var listed := AllPages(sessions, q, limit, None);
            && Descending(listed)
            && multiset(listed) == multiset(Matching(sessions, q, None))
            && (forall s :: s in listed <==> s in sessions && Matches(s, q))
            && (forall s :: s in listed ==> s.user == q.user && s.meeting == q.meeting && (q.space.None? || s.space == q.space))
            && forall i, j :: 0 <= i < j < |listed| ==>
                                listed[i].updatedAt > listed[j].updatedAt
                                || (listed[i].updatedAt == listed[j].updatedAt && listed[i].id > listed[j].id)
  {
    PagesAreTheRest(sessions, q, limit, None);
    RemainsSorted(sessions, q, None);
    MatchingDistinct(sessions, q, None);
    var listed := AllPages(sessions, q, limit, None);
    forall s
      ensures s in listed <==> s in sessions && Matches(s, q)
    {
      assert s in listed <==> s in multiset(listed);
      assert s in Matching(sessions, q, None) <==> s in multiset(Matching(sessions, q, None));
    }
  }
}

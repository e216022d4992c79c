/**
 Listing messages page by page from the in-memory store: services/messaging/src/ports/messages/inMemory.
 The store is a JavaScript Map, so it is a sequence in insertion order with distinct ids.
 */
module MessagePages {
  import opened Common

  datatype Message = Message(id: string, conversationId: string, senderId: string, kind: string, status: string,
                             content: string, createdAt: int, deletedAt: Option<int>)

  datatype Filter = Filter(conversationId: Option<string>, senderId: Option<string>, status: Option<string>,
                           kind: Option<string>, includeDeleted: bool, before: Option<int>, after: Option<int>)

  // ----- filtering and sorting -------------------------------------------------------------------------------------

  function Select(s: seq<Message>, p: Message -> bool): seq<Message> {
    if s == [] then []
    else Select(s[..|s| - 1], p) + if p(s[|s| - 1]) then [s[|s| - 1]] else []
  }

  /** An empty string switches a filter off, as an absent one does. */
  predicate Given(o: Option<string>) {
    o.Some? && o.value != ""
  }

  function Pass(messages: seq<Message>, on: bool, p: Message -> bool): seq<Message> {
    if on then Select(messages, p) else messages
  }

  function SameConversation(f: Filter): Message -> bool { (m: Message) => Some(m.conversationId) == f.conversationId }
  function SameSender(f: Filter): Message -> bool { (m: Message) => Some(m.senderId) == f.senderId }
  function SameStatus(f: Filter): Message -> bool { (m: Message) => Some(m.status) == f.status }
  function SameKind(f: Filter): Message -> bool { (m: Message) => Some(m.kind) == f.kind }
  function NotDeleted(): Message -> bool { (m: Message) => m.deletedAt.None? }
  function Before(f: Filter): Message -> bool { (m: Message) => f.before.Some? && m.createdAt < f.before.value }
  function After(f: Filter): Message -> bool { (m: Message) => f.after.Some? && m.createdAt > f.after.value }

  function Narrowed(messages: seq<Message>, f: Filter): seq<Message> {
    var byConversation := Pass(messages, Given(f.conversationId), SameConversation(f));
    var bySender := Pass(byConversation, Given(f.senderId), SameSender(f));
    var byStatus := Pass(bySender, Given(f.status), SameStatus(f));
    var byType := Pass(byStatus, Given(f.kind), SameKind(f));
    var withoutDeleted := Pass(byType, !f.includeDeleted, NotDeleted());
    var before := Pass(withoutDeleted, f.before.Some?, Before(f));
    Pass(before, f.after.Some?, After(f))
  }

  predicate Matches(f: Filter, m: Message) {
    && (Given(f.conversationId) ==> m.conversationId == f.conversationId.value)
    && (Given(f.senderId) ==> m.senderId == f.senderId.value)
    && (Given(f.status) ==> m.status == f.status.value)
    && (Given(f.kind) ==> m.kind == f.kind.value)
    && (!f.includeDeleted ==> m.deletedAt.None?)
    && (f.before.Some? ==> m.createdAt < f.before.value)
    && (f.after.Some? ==> m.createdAt > f.after.value)
  }

  function Matching(f: Filter): Message -> bool {
    (m: Message) => Matches(f, m)
  }

  /** Newest first: behind everything that is at least as new. */
  function Insert(sorted: seq<Message>, x: Message): seq<Message> {
    if sorted == [] || sorted[|sorted| - 1].createdAt >= x.createdAt then sorted + [x]
    else Insert(sorted[..|sorted| - 1], x) + [sorted[|sorted| - 1]]
  }

  /** Array.prototype.sort is stable, which fixes its result (SortIsTheStableSort). */
  function Sort(s: seq<Message>): seq<Message> {
    if s == [] then [] else Insert(Sort(s[..|s| - 1]), s[|s| - 1])
  }

  function FilterMessages(messages: seq<Message>, f: Filter): seq<Message> {
    Sort(Narrowed(messages, f))
  }

  // ----- one page --------------------------------------------------------------------------------------------------

  function FindIndex(s: seq<Message>, id: string): int {
    if s == [] then -1
    else
      var i := FindIndex(s[..|s| - 1], id);
      if i >= 0 then i else if s[|s| - 1].id == id then |s| - 1 else -1
  }

  datatype Page = Page(items: seq<Message>, nextCursor: Option<string>)
  datatype Result<T> = Ok(value: T) | Thrown

  function SliceWithCursor(s: seq<Message>, cursor: Option<string>, limit: nat): seq<Message> {
    var cursorIndex := if Given(cursor) then FindIndex(s, cursor.value) else -1;
    var start := Min(if cursorIndex >= 0 then cursorIndex + 1 else 0, |s|);
    s[start..Min(start + limit, |s|)]
  }

  /** With limit 0 the last of no items is asked for its id, which throws. */
  function DeriveNextCursor(items: seq<Message>, limit: nat): Result<Option<string>> {
    if |items| != limit then Ok(None)
    else if items == [] then Thrown
    else Ok(Some(items[|items| - 1].id))
  }

  function ListPage(messages: seq<Message>, f: Filter, cursor: Option<string>, limit: nat): Result<Page> {
    var items := SliceWithCursor(FilterMessages(messages, f), cursor, limit);
    match DeriveNextCursor(items, limit)
    case Ok(next) => Ok(Page(items, next))
    case Thrown => Thrown
  }

  /** A page can be asked for without an error exactly when it may hold something. */
  lemma ThrowsIffNoRoom(messages: seq<Message>, f: Filter, cursor: Option<string>, limit: nat)
    ensures ListPage(messages, f, cursor, limit) == Thrown <==> limit == 0
  {
    hide FilterMessages;
  }

  // ----- what filtering means --------------------------------------------------------------------------------------

  lemma SelectAppend(s: seq<Message>, x: Message, p: Message -> bool)
    ensures Select(s + [x], p) == Select(s, p) + if p(x) then [x] else []
  {
    assert (s + [x])[..|s|] == s;
  }

  lemma {:induction false} SelectMembers(s: seq<Message>, p: Message -> bool, m: Message)
    ensures m in Select(s, p) <==> m in s && p(m)
  {
    if s != [] {
      SelectMembers(s[..|s| - 1], p, m);
      assert s == s[..|s| - 1] + [s[|s| - 1]];
    }
  }

  lemma {:induction false} PassNarrows(s: seq<Message>, p: Message -> bool, on: bool, q: Message -> bool,
                                       r: Message -> bool)
    requires forall m :: r(m) == (p(m) && (on ==> q(m)))
    ensures Pass(Select(s, p), on, q) == Select(s, r)
  {
    if s != [] {
      PassNarrows(s[..|s| - 1], p, on, q, r);
      var t := Select(s[..|s| - 1], p);
      SelectAppend(t, s[|s| - 1], q);
      assert t + [] == t;
    }
  }

  lemma {:induction false} SelectAll(s: seq<Message>, p: Message -> bool)
    requires forall m :: p(m)
    ensures Select(s, p) == s
  {
    if s != [] {
      SelectAll(s[..|s| - 1], p);
    }
  }

  /** The seven passes are one pass. */
  lemma NarrowedIsOnePass(s: seq<Message>, f: Filter)
    ensures Narrowed(s, f) == Select(s, Matching(f))
  {
    hide Select, Pass;
    var p0 := (m: Message) => true;
    var p1 := (m: Message) => Given(f.conversationId) ==> Some(m.conversationId) == f.conversationId;
    var p2 := (m: Message) => p1(m) && (Given(f.senderId) ==> Some(m.senderId) == f.senderId);
    var p3 := (m: Message) => p2(m) && (Given(f.status) ==> Some(m.status) == f.status);
    var p4 := (m: Message) => p3(m) && (Given(f.kind) ==> Some(m.kind) == f.kind);
    var p5 := (m: Message) => p4(m) && (!f.includeDeleted ==> m.deletedAt.None?);
    var p6 := (m: Message) => p5(m) && (f.before.Some? ==> m.createdAt < f.before.value);
    SelectAll(s, p0);
    PassNarrows(s, p0, Given(f.conversationId), SameConversation(f), p1);
    PassNarrows(s, p1, Given(f.senderId), SameSender(f), p2);
    PassNarrows(s, p2, Given(f.status), SameStatus(f), p3);
    PassNarrows(s, p3, Given(f.kind), SameKind(f), p4);
    PassNarrows(s, p4, !f.includeDeleted, NotDeleted(), p5);
    PassNarrows(s, p5, f.before.Some?, Before(f), p6);
    PassNarrows(s, p6, f.after.Some?, After(f), Matching(f));
  }

  // ----- what sorting means ----------------------------------------------------------------------------------------

  ghost predicate Descending(s: seq<Message>) {
    forall i, j :: 0 <= i < j < |s| ==> s[i].createdAt >= s[j].createdAt
  }

  ghost predicate DistinctIds(s: seq<Message>) {
    forall i, j :: 0 <= i < j < |s| ==> s[i].id != s[j].id
  }

  function CreatedAt(t: int): Message -> bool {
    (m: Message) => m.createdAt == t
  }

  /** How many of the sorted messages stay ahead of a newcomer. */
  function Place(sorted: seq<Message>, x: Message): (k: nat)
    ensures k <= |sorted| && (k > 0 ==> sorted[k - 1].createdAt >= x.createdAt)
    ensures forall i :: k <= i < |sorted| ==> sorted[i].createdAt < x.createdAt
  {
    if sorted == [] || sorted[|sorted| - 1].createdAt >= x.createdAt then |sorted| else Place(sorted[..|sorted| - 1], x)
  }

  lemma {:induction false} InsertSplices(sorted: seq<Message>, x: Message)
    ensures Insert(sorted, x) == sorted[..Place(sorted, x)] + [x] + sorted[Place(sorted, x)..]
  {
    if sorted != [] && sorted[|sorted| - 1].createdAt < x.createdAt {
      var front, k := sorted[..|sorted| - 1], Place(sorted, x);
      InsertSplices(front, x);
      assert sorted[k..] == front[k..] + [sorted[|sorted| - 1]];
    }
  }

  lemma InsertAt(sorted: seq<Message>, x: Message, i: nat)
    requires i <= |sorted|
    ensures var k := Place(sorted, x);
            |Insert(sorted, x)| == |sorted| + 1 &&
            Insert(sorted, x)[i] == if i < k then sorted[i] else if i == k then x else sorted[i - 1]
  {
    InsertSplices(sorted, x);
  }

  lemma InsertKeepsOrder(sorted: seq<Message>, x: Message)
    requires Descending(sorted)
    ensures Descending(Insert(sorted, x))
  {
    hide Insert;
    InsertAt(sorted, x, 0);
    forall i, j | 0 <= i < j < |Insert(sorted, x)|
      ensures Insert(sorted, x)[i].createdAt >= Insert(sorted, x)[j].createdAt
    {
      InsertAt(sorted, x, i);
      InsertAt(sorted, x, j);
    }
  }

  lemma {:induction false} InsertAddsOne(sorted: seq<Message>, x: Message)
    ensures multiset(Insert(sorted, x)) == multiset(sorted) + multiset{x}
  {
    if sorted != [] && sorted[|sorted| - 1].createdAt < x.createdAt {
      InsertAddsOne(sorted[..|sorted| - 1], x);
      assert sorted == sorted[..|sorted| - 1] + [sorted[|sorted| - 1]];
    }
  }

  lemma SelectLast(s: seq<Message>, v: int)
    requires s != []
    ensures var last := s[|s| - 1];
            Select(s, CreatedAt(v)) == Select(s[..|s| - 1], CreatedAt(v)) + if last.createdAt == v then [last] else []
  {
  }

  lemma {:induction false} InsertKeepsBuckets(sorted: seq<Message>, x: Message, t: int)
    ensures Select(Insert(sorted, x), CreatedAt(t)) ==
            Select(sorted, CreatedAt(t)) + if x.createdAt == t then [x] else []
  {
    var p := CreatedAt(t);
    if sorted == [] || sorted[|sorted| - 1].createdAt >= x.createdAt {
      SelectAppend(sorted, x, p);
    } else {
      hide Select;
      var front, last := sorted[..|sorted| - 1], sorted[|sorted| - 1];
      InsertKeepsBuckets(front, x, t);
      SelectAppend(Insert(front, x), last, p);
      SelectLast(sorted, t);
      assert Select(front, p) + [] == Select(front, p);
    }
  }

  lemma SortAppend(s: seq<Message>, x: Message)
    ensures Sort(s + [x]) == Insert(Sort(s), x)
  {
    assert (s + [x])[..|s|] == s;
  }

  /** Newest first, nothing lost, and messages of one instant stay in the order they had. */
  lemma {:induction false} SortSorts(s: seq<Message>)
    ensures Descending(Sort(s)) && multiset(Sort(s)) == multiset(s)
    ensures forall t :: Select(Sort(s), CreatedAt(t)) == Select(s, CreatedAt(t))
  {
    if s != [] {
      hide Insert, Select, Descending, Sort;
      var front, last := s[..|s| - 1], s[|s| - 1];
      assert s == front + [last];
      SortSorts(front);
      SortAppend(front, last);
      InsertKeepsOrder(Sort(front), last);
      InsertAddsOne(Sort(front), last);
      forall t ensures Select(Sort(s), CreatedAt(t)) == Select(s, CreatedAt(t)) {
        InsertKeepsBuckets(Sort(front), last, t);
        SelectLast(s, t);
      }
    } else {
      assert Sort(s) == s;
    }
  }

  lemma OldestLast(s: seq<Message>, t: int)
    requires Descending(s) && Select(s, CreatedAt(t)) != []
    ensures s != [] && s[|s| - 1].createdAt <= t
  {
    var m := Select(s, CreatedAt(t))[0];
    SelectMembers(s, CreatedAt(t), m);
  }

  lemma CancelSuffix(a: seq<Message>, b: seq<Message>, c: seq<Message>)
    requires a + c == b + c
    ensures a == b
  {
    assert |a| == |b|;
    assert a == (a + c)[..|a|] && b == (b + c)[..|b|];
  }

  lemma LastIsSelected(s: seq<Message>)
    ensures s != [] ==> Select(s, CreatedAt(s[|s| - 1].createdAt)) != []
  {
  }

  /** There is only one such order. */
  lemma {:induction false} StableOrderUnique(a: seq<Message>, b: seq<Message>)
    requires Descending(a) && Descending(b)
    requires forall t :: Select(a, CreatedAt(t)) == Select(b, CreatedAt(t))
    ensures a == b
  {
    LastIsSelected(b);
    if a == [] {
    } else {
      hide Select;
      var t := a[|a| - 1].createdAt;
      SelectLast(a, t);
      OldestLast(b, t);
      var u := b[|b| - 1].createdAt;
      SelectLast(b, u);
      OldestLast(a, u);
      assert Select(a, CreatedAt(t))[|Select(a, CreatedAt(t))| - 1] == a[|a| - 1];
      var a', b' := a[..|a| - 1], b[..|b| - 1];
      assert a[|a| - 1] == b[|b| - 1];
      forall v ensures Select(a', CreatedAt(v)) == Select(b', CreatedAt(v)) {
        SelectLast(a, v);
        SelectLast(b, v);
        CancelSuffix(Select(a', CreatedAt(v)), Select(b', CreatedAt(v)), if t == v then [a[|a| - 1]] else []);
      }
      StableOrderUnique(a', b');
      assert a == a' + [a[|a| - 1]] && b == b' + [b[|b| - 1]];
    }
  }

  lemma SortIsTheStableSort(s: seq<Message>, r: seq<Message>)
    requires Descending(r) && forall t :: Select(r, CreatedAt(t)) == Select(s, CreatedAt(t))
    ensures r == Sort(s)
  {
    SortSorts(s);
    StableOrderUnique(r, Sort(s));
  }

  // ----- what list(filter) means -----------------------------------------------------------------------------------

  lemma {:induction false} FilterMeansMatching(s: seq<Message>, f: Filter)
    ensures FilterMessages(s, f) == Sort(Select(s, Matching(f)))
    ensures forall m :: m in FilterMessages(s, f) <==> m in s && Matches(f, m)
  {
    NarrowedIsOnePass(s, f);
    var matching := Select(s, Matching(f));
    SortSorts(matching);
    forall m ensures m in Sort(matching) <==> m in s && Matches(f, m) {
      SelectMembers(s, Matching(f), m);
      assert m in Sort(matching) <==> m in multiset(Sort(matching));
      assert m in matching <==> m in multiset(matching);
    }
  }

  lemma ListingDescends(messages: seq<Message>, f: Filter)
    ensures Descending(FilterMessages(messages, f))
  {
    SortSorts(Narrowed(messages, f));
  }

  lemma FilterAppend(s: seq<Message>, x: Message, f: Filter)
    ensures FilterMessages(s + [x], f) ==
            if Matches(f, x) then Insert(FilterMessages(s, f), x) else FilterMessages(s, f)
  {
    NarrowedIsOnePass(s, f);
    NarrowedIsOnePass(s + [x], f);
    SelectAppend(s, x, Matching(f));
    var matching := Select(s, Matching(f));
    assert Matches(f, x) ==> (matching + [x])[..|matching|] == matching;
    assert matching + [] == matching;
  }

  lemma InsertKeepsDistinct(sorted: seq<Message>, x: Message)
    requires DistinctIds(sorted) && forall m :: m in sorted ==> m.id != x.id
    ensures DistinctIds(Insert(sorted, x))
  {
    hide Insert;
    InsertAt(sorted, x, 0);
    forall i, j | 0 <= i < j < |Insert(sorted, x)| ensures Insert(sorted, x)[i].id != Insert(sorted, x)[j].id {
      InsertAt(sorted, x, i);
      InsertAt(sorted, x, j);
    }
  }

  lemma DistinctFront(front: seq<Message>, last: Message)
    requires DistinctIds(front + [last])
    ensures DistinctIds(front) && forall m :: m in front ==> m.id != last.id
  {
    var all := front + [last];
    assert forall i :: 0 <= i < |front| ==> all[i] == front[i];
    assert all[|front|] == last;
  }

  lemma {:induction false} FilterKeepsDistinct(s: seq<Message>, f: Filter)
    requires DistinctIds(s)
    ensures DistinctIds(FilterMessages(s, f))
  {
    if s == [] {
      NarrowedIsOnePass(s, f);
    } else {
      hide FilterMessages, Insert, Matches, Sort, Select, DistinctIds;
      var front, last := s[..|s| - 1], s[|s| - 1];
      assert s == front + [last];
      DistinctFront(front, last);
      FilterKeepsDistinct(front, f);
      FilterAppend(front, last, f);
      FilterMeansMatching(front, f);
      InsertKeepsDistinct(FilterMessages(front, f), last);
    }
  }
}

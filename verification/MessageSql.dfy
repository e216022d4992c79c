/**
 The SQL behind message listing: services/messaging/src/ports/messages/postgres/messagesReadAdapter.ts builds a query
 with positional parameters; here it is a syntax tree, evaluated over the rows of messaging.messages.
 */
module MessageSql {
  import opened Common
  import opened MessagePages
  import opened MessageStore

  // ----- the query -------------------------------------------------------------------------------------------------

  datatype Value = Text(text: string) | Time(time: int) | Number(number: nat)
  datatype Column = ConversationId | SenderId | Status | Kind
  datatype Comparison = Lower | Higher

  /** Parameters are numbered from 1: $1 is params[0]. */
  datatype Clause =
    | Equals(column: Column, param: nat)
    | DeletedIsNull
    | Compares(comparison: Comparison, param: nat)
    | BehindRow(param: nat)

  datatype Built = Built(where: seq<Clause>, params: seq<Value>)
  datatype Options = NoOptions | CountOnly | PageOf(cursor: Option<string>, limit: nat)
  datatype Query =
    | SelectRows(where: seq<Clause>, limitParam: Option<nat>, params: seq<Value>)
    | SelectCount(where: seq<Clause>, params: seq<Value>)

  function WithEquality(b: Built, column: Column, value: Option<string>): Built {
    if value.None? then b
    else Built(b.where + [Equals(column, |b.params| + 1)], b.params + [Text(value.value)])
  }

  function WithComparison(b: Built, comparison: Comparison, value: Option<int>): Built {
    if value.None? then b
    else Built(b.where + [Compares(comparison, |b.params| + 1)], b.params + [Time(value.value)])
  }

  function WithNotDeleted(b: Built): Built {
    Built(b.where + [DeletedIsNull], b.params)
  }

  function WithCursor(b: Built, cursor: Option<string>): Built {
    if !Given(cursor) then b
    else Built(b.where + [BehindRow(|b.params| + 1)], b.params + [Text(cursor.value)])
  }

  function FilterClauses(f: Filter): Built {
    var b0 := Built([], []);
    var b1 := WithEquality(b0, ConversationId, f.conversationId);
    var b2 := WithEquality(b1, SenderId, f.senderId);
    var b3 := WithEquality(b2, Status, f.status);
    var b4 := WithEquality(b3, Kind, f.kind);
    var b5 := if f.includeDeleted then b4 else WithNotDeleted(b4);
    var b6 := WithComparison(b5, Lower, f.before);
    WithComparison(b6, Higher, f.after)
  }

  function BuildQuery(f: Filter, options: Options): Query {
    var b := FilterClauses(f);
    match options
    case CountOnly => SelectCount(b.where, b.params)
    case NoOptions => SelectRows(b.where, None, b.params)
    case PageOf(cursor, limit) =>
      var c := WithCursor(b, cursor);
      SelectRows(c.where, Some(|c.params| + 1), c.params + [Number(limit)])
  }

  /** The two arrays that the helper functions push onto. */
  class QueryBuilder {
    var where: seq<Clause>
    var params: seq<Value>

    ghost function So(): Built
      reads this
    {
      Built(where, params)
    }

    constructor ()
      ensures So() == Built([], [])
    {
      where, params := [], [];
    }

    method AppendEqualityFilter(column: Column, value: Option<string>)
      modifies this
      ensures So() == WithEquality(old(So()), column, value)
    {
      if value.None? {
        return;
      }
      params := params + [Text(value.value)];
      where := where + [Equals(column, |params|)];
    }

    method AppendComparisonFilter(comparison: Comparison, value: Option<int>)
      modifies this
      ensures So() == WithComparison(old(So()), comparison, value)
    {
      if value.None? {
        return;
      }
      params := params + [Time(value.value)];
      where := where + [Compares(comparison, |params|)];
    }

    method BuildCursorClause(cursor: Option<string>) returns (clause: Option<Clause>)
      modifies this`params
      ensures WithCursor(old(So()), cursor) == Built(where + if clause.Some? then [clause.value] else [], params)
    {
      if cursor.None? || cursor.value == "" {
        return None;
      }
      params := params + [Text(cursor.value)];
      return Some(BehindRow(|params|));
    }

    method BuildLimitClause(limit: nat) returns (param: nat)
      modifies this`params
      ensures params == old(params) + [Number(limit)] && param == |params|
    {
      params := params + [Number(limit)];
      return |params|;
    }

    method Build(f: Filter, options: Options) returns (query: Query)
      requires So() == Built([], [])
      modifies this
      ensures query == BuildQuery(f, options)
    {
      AppendEqualityFilter(ConversationId, f.conversationId);
      AppendEqualityFilter(SenderId, f.senderId);
      AppendEqualityFilter(Status, f.status);
      AppendEqualityFilter(Kind, f.kind);
      if !f.includeDeleted {
        where := where + [DeletedIsNull];
      }
      AppendComparisonFilter(Lower, f.before);
      AppendComparisonFilter(Higher, f.after);
      assert So() == FilterClauses(f);
      hide FilterClauses, WithEquality, WithComparison, WithNotDeleted;
      match options
      case CountOnly =>
        return SelectCount(where, params);
      case NoOptions =>
        return SelectRows(where, None, params);
      case PageOf(cursor, limit) =>
        var cursorClause := BuildCursorClause(cursor);
        var clauses := where;
        if cursorClause.Some? {
          clauses := clauses + [cursorClause.value];
        }
        var limitParam := BuildLimitClause(limit);
        return SelectRows(clauses, Some(limitParam), params);
    }
  }

  // ----- what a query means ----------------------------------------------------------------------------------------

  /** SQL's three truth values. */
  datatype Truth = True | False | Unknown

  function And(a: Truth, b: Truth): Truth {
    if a == False || b == False then False
    else if a == True && b == True then True
    else Unknown
  }

  function Truly(b: bool): Truth {
    if b then True else False
  }

  function Param(params: seq<Value>, n: nat): Option<Value> {
    if 1 <= n <= |params| then Some(params[n - 1]) else None
  }

  function ColumnOf(m: Message, column: Column): string {
    match column
    case ConversationId => m.conversationId
    case SenderId => m.senderId
    case Status => m.status
    case Kind => m.kind
  }

  predicate StringLess(a: string, b: string) {
    b != "" && (a == "" || a[0] < b[0] || (a[0] == b[0] && StringLess(a[1..], b[1..])))
  }

  /** Row comparison (created_at, id) < (created_at, id). */
  predicate RowLess(a: Message, b: Message) {
    a.createdAt < b.createdAt || (a.createdAt == b.createdAt && StringLess(a.id, b.id))
  }

  /**
   The subselect looks the cursor row up in the whole table; no such row is NULL, and comparing with NULL is unknown.
   */
  function Eval(table: seq<Message>, clause: Clause, params: seq<Value>, row: Message): Truth {
    match clause
    case DeletedIsNull => Truly(row.deletedAt.None?)
    case Equals(column, n) =>
      (match Param(params, n)
       case Some(Text(s)) => Truly(ColumnOf(row, column) == s)
       case _ => Unknown)
    case Compares(comparison, n) =>
      (match Param(params, n)
       case Some(Time(t)) => Truly(if comparison.Lower? then row.createdAt < t else row.createdAt > t)
       case _ => Unknown)
    case BehindRow(n) =>
      (match Param(params, n)
       case Some(Text(id)) =>
         var i := FindIndex(table, id);
         if 0 <= i < |table| then Truly(RowLess(row, table[i])) else Unknown
       case _ => Unknown)
  }

  function EvalAll(table: seq<Message>, where: seq<Clause>, params: seq<Value>, row: Message): Truth {
    if where == [] then True
    else And(EvalAll(table, where[..|where| - 1], params, row), Eval(table, where[|where| - 1], params, row))
  }

  function Chosen(table: seq<Message>, where: seq<Clause>, params: seq<Value>): Message -> bool {
    (row: Message) => EvalAll(table, where, params, row) == True
  }

  /** order by created_at desc, id desc */
  ghost predicate Ordered(rows: seq<Message>) {
    forall i, j :: 0 <= i < j < |rows| ==> !RowLess(rows[i], rows[j])
  }

  ghost predicate OrderOf(rows: seq<Message>, chosen: seq<Message>) {
    multiset(rows) == multiset(chosen) && Ordered(rows)
  }

  function LimitOf(q: Query): Option<nat> {
    if !q.SelectRows? || q.limitParam.None? then None
    else
      match Param(q.params, q.limitParam.value)
      case Some(Number(n)) => Some(n)
      case _ => None
  }

  /** The rows that the query may answer with. */
  ghost predicate Returns(table: seq<Message>, q: Query, result: seq<Message>) {
    q.SelectRows? &&
    exists rows :: OrderOf(rows, Select(table, Chosen(table, q.where, q.params))) &&
                   result == if LimitOf(q).Some? then rows[..Min(LimitOf(q).value, |rows|)] else rows
  }

  function CountOf(table: seq<Message>, q: Query): nat {
    |Select(table, Chosen(table, q.where, q.params))|
  }

  // ----- the clauses mean the filter -------------------------------------------------------------------------------

  predicate ParamInScope(c: Clause, params: seq<Value>) {
    c.DeletedIsNull? || 1 <= c.param <= |params|
  }

  predicate InScope(b: Built) {
    forall i :: 0 <= i < |b.where| ==> ParamInScope(b.where[i], b.params)
  }

  /** Later parameters leave the numbers of earlier ones alone. */
  lemma {:induction false} LaterParamsIrrelevant(table: seq<Message>, b: Built, more: seq<Value>, row: Message)
    requires InScope(b)
    ensures EvalAll(table, b.where, b.params + more, row) == EvalAll(table, b.where, b.params, row)
    decreases |b.where|
  {
    if b.where != [] {
      LaterParamsIrrelevant(table, Built(b.where[..|b.where| - 1], b.params), more, row);
      assert ParamInScope(b.where[|b.where| - 1], b.params);
    }
  }

  lemma PushedClause(table: seq<Message>, b: Built, c: Clause, pushed: seq<Value>, row: Message)
    requires InScope(b) && ParamInScope(c, b.params + pushed)
    ensures InScope(Built(b.where + [c], b.params + pushed))
    ensures EvalAll(table, b.where + [c], b.params + pushed, row)
         == And(EvalAll(table, b.where, b.params, row), Eval(table, c, b.params + pushed, row))
  {
    LaterParamsIrrelevant(table, b, pushed, row);
    assert (b.where + [c])[..|b.where|] == b.where;
    assert forall i :: 0 <= i < |b.where| ==> ParamInScope(b.where[i], b.params);
  }

  predicate Passes(table: seq<Message>, b: Built, row: Message) {
    EvalAll(table, b.where, b.params, row) == True
  }

  lemma EqualityMeans(table: seq<Message>, b: Built, column: Column, value: Option<string>, row: Message)
    requires InScope(b)
    ensures InScope(WithEquality(b, column, value))
    ensures Passes(table, WithEquality(b, column, value), row) <==>
            Passes(table, b, row) && (value.Some? ==> ColumnOf(row, column) == value.value)
  {
    hide EvalAll, InScope;
    if value.Some? {
      PushedClause(table, b, Equals(column, |b.params| + 1), [Text(value.value)], row);
    }
  }

  lemma ComparisonMeans(table: seq<Message>, b: Built, comparison: Comparison, value: Option<int>, row: Message)
    requires InScope(b)
    ensures InScope(WithComparison(b, comparison, value))
    ensures Passes(table, WithComparison(b, comparison, value), row) <==>
            Passes(table, b, row) &&
            (value.Some? ==> if comparison.Lower? then row.createdAt < value.value else row.createdAt > value.value)
  {
    hide EvalAll, InScope;
    if value.Some? {
      PushedClause(table, b, Compares(comparison, |b.params| + 1), [Time(value.value)], row);
    }
  }

  lemma NotDeletedMeans(table: seq<Message>, b: Built, row: Message)
    requires InScope(b)
    ensures InScope(WithNotDeleted(b))
    ensures Passes(table, WithNotDeleted(b), row) <==> Passes(table, b, row) && row.deletedAt.None?
  {
    hide EvalAll, InScope;
    PushedClause(table, b, DeletedIsNull, [], row);
    assert b.params + [] == b.params;
  }

  /** An empty string of the filter is no condition in memory, but one in SQL. */
  predicate MeetsEmptyStrings(f: Filter, m: Message) {
    && (f.conversationId == Some("") ==> m.conversationId == "")
    && (f.senderId == Some("") ==> m.senderId == "")
    && (f.status == Some("") ==> m.status == "")
    && (f.kind == Some("") ==> m.kind == "")
  }

  predicate SqlMatches(f: Filter, m: Message) {
    Matches(f, m) && MeetsEmptyStrings(f, m)
  }

  lemma ClausesMeanFilter(table: seq<Message>, f: Filter, row: Message)
    ensures InScope(FilterClauses(f))
    ensures Passes(table, FilterClauses(f), row) <==> SqlMatches(f, row)
  {
    hide InScope, Passes, WithEquality, WithComparison, WithNotDeleted;
    var b0 := Built([], []);
    assert InScope(b0) && Passes(table, b0, row) by {
      EmptyPasses(table, row);
    }
    var b1 := WithEquality(b0, ConversationId, f.conversationId);
    EqualityMeans(table, b0, ConversationId, f.conversationId, row);
    var b2 := WithEquality(b1, SenderId, f.senderId);
    EqualityMeans(table, b1, SenderId, f.senderId, row);
    var b3 := WithEquality(b2, Status, f.status);
    EqualityMeans(table, b2, Status, f.status, row);
    var b4 := WithEquality(b3, Kind, f.kind);
    EqualityMeans(table, b3, Kind, f.kind, row);
    var b5 := if f.includeDeleted then b4 else WithNotDeleted(b4);
    NotDeletedMeans(table, b4, row);
    var b6 := WithComparison(b5, Lower, f.before);
    ComparisonMeans(table, b5, Lower, f.before, row);
    ComparisonMeans(table, b6, Higher, f.after, row);
  }

  lemma EmptyPasses(table: seq<Message>, row: Message)
    ensures InScope(Built([], [])) && Passes(table, Built([], []), row)
  {
  }

  lemma CursorMeans(table: seq<Message>, b: Built, cursor: Option<string>, row: Message)
    requires InScope(b)
    ensures InScope(WithCursor(b, cursor))
    ensures Passes(table, WithCursor(b, cursor), row) <==>
            Passes(table, b, row) && (Given(cursor) ==> BehindCursor(table, cursor.value, row))
  {
    hide EvalAll, InScope;
    if Given(cursor) {
      PushedClause(table, b, BehindRow(|b.params| + 1), [Text(cursor.value)], row);
    }
  }

  predicate BehindCursor(table: seq<Message>, id: string, row: Message) {
    var i := FindIndex(table, id);
    0 <= i < |table| && RowLess(row, table[i])
  }

  /** Which rows the page query keeps, and how many: the parameters end up where the clauses look for them. */
  lemma PageQueryMeans(table: seq<Message>, f: Filter, cursor: Option<string>, limit: nat, row: Message)
    ensures var q := BuildQuery(f, PageOf(cursor, limit));
            && q.SelectRows? && LimitOf(q) == Some(limit)
            && (Chosen(table, q.where, q.params)(row) <==>
                  SqlMatches(f, row) && (Given(cursor) ==> BehindCursor(table, cursor.value, row)))
  {
    hide FilterClauses;
    var b := FilterClauses(f);
    ClausesMeanFilter(table, f, row);
    CursorMeans(table, b, cursor, row);
    LaterParamsIrrelevant(table, WithCursor(b, cursor), [Number(limit)], row);
  }

  /** The query of `list` keeps the rows that match, and has no limit. */
  lemma ListQueryMeans(table: seq<Message>, f: Filter, row: Message)
    ensures var q := BuildQuery(f, NoOptions);
            && q.SelectRows? && LimitOf(q).None?
            && (Chosen(table, q.where, q.params)(row) <==> SqlMatches(f, row))
  {
    hide FilterClauses;
    ClausesMeanFilter(table, f, row);
  }

  // ----- order by has one answer -----------------------------------------------------------------------------------

  lemma {:induction false} StringOrder(a: string, b: string, c: string)
    ensures !StringLess(a, a)
    ensures StringLess(a, b) || StringLess(b, a) || a == b
    ensures StringLess(a, b) && StringLess(b, c) ==> StringLess(a, c)
    decreases |a|
  {
    if a != "" {
      if b != "" && c != "" && a[0] == b[0] && b[0] == c[0] {
        StringOrder(a[1..], b[1..], c[1..]);
      } else if b != "" && a[0] == b[0] {
        StringOrder(a[1..], b[1..], "");
      } else {
        StringOrder(a[1..], "", "");
      }
      assert a == [a[0]] + a[1..] && (b != "" ==> b == [b[0]] + b[1..]);
    }
  }

  /** Rows of different ids are in one order or the other. */
  lemma RowOrder(a: Message, b: Message, c: Message)
    ensures !RowLess(a, a)
    ensures a.id != b.id ==> RowLess(a, b) || RowLess(b, a)
    ensures RowLess(a, b) && RowLess(b, c) ==> RowLess(a, c)
  {
    StringOrder(a.id, b.id, c.id);
  }

  lemma DropLast(a: seq<Message>, b: seq<Message>, x: Message)
    requires multiset(a + [x]) == multiset(b + [x])
    ensures multiset(a) == multiset(b)
  {
    assert multiset(a + [x]) == multiset(a) + multiset{x};
    assert multiset(b + [x]) == multiset(b) + multiset{x};
    forall m ensures multiset(a)[m] == multiset(b)[m] {
      assert multiset(a + [x])[m] == multiset(b + [x])[m];
    }
  }

  lemma FrontKeeps(a: seq<Message>)
    requires a != [] && Ordered(a)
    ensures a == a[..|a| - 1] + [a[|a| - 1]] && Ordered(a[..|a| - 1])
    ensures DistinctIds(a) ==> DistinctIds(a[..|a| - 1])
  {
  }

  lemma SameLast(a: seq<Message>, b: seq<Message>)
    requires Ordered(a) && Ordered(b) && multiset(a) == multiset(b) && DistinctIds(a) && a != []
    ensures b != [] && a[|a| - 1] == b[|b| - 1]
  {
    assert |multiset(b)| == |a|;
    var x, y := a[|a| - 1], b[|b| - 1];
    assert y in multiset(a) && x in multiset(b);
    var j :| 0 <= j < |a| && a[j] == y;
    var i :| 0 <= i < |b| && b[i] == x;
    RowOrder(x, y, x);
    RowOrder(y, x, y);
    hide RowLess;
  }

  /** Rows of distinct ids have one order only. */
  lemma {:induction false} OrderUnique(a: seq<Message>, b: seq<Message>)
    requires Ordered(a) && Ordered(b) && multiset(a) == multiset(b) && DistinctIds(a)
    ensures a == b
  {
    hide Ordered, DistinctIds;
    if a == [] {
      assert |multiset(b)| == 0;
    } else {
      SameLast(a, b);
      FrontKeeps(a);
      FrontKeeps(b);
      DropLast(a[..|a| - 1], b[..|b| - 1], a[|a| - 1]);
      OrderUnique(a[..|a| - 1], b[..|b| - 1]);
    }
  }

  // ----- selecting and sorting commute -----------------------------------------------------------------------------

  lemma SelectFront(s: seq<Message>, p: Message -> bool)
    requires s != []
    ensures Select(s, p) == Select(s[..|s| - 1], p) + if p(s[|s| - 1]) then [s[|s| - 1]] else []
  {
  }

  lemma InsertLast(sorted: seq<Message>, x: Message)
    requires forall m :: m in sorted ==> m.createdAt >= x.createdAt
    ensures Insert(sorted, x) == sorted + [x]
  {
    assert sorted != [] ==> sorted[|sorted| - 1] in sorted;
  }

  lemma InsertBeforeLast(sorted: seq<Message>, last: Message, x: Message)
    requires last.createdAt < x.createdAt
    ensures Insert(sorted + [last], x) == Insert(sorted, x) + [last]
  {
    assert (sorted + [last])[..|sorted|] == sorted;
  }

  lemma {:induction false} SelectInsert(sorted: seq<Message>, x: Message, p: Message -> bool)
    requires Descending(sorted)
    ensures Select(Insert(sorted, x), p) == if p(x) then Insert(Select(sorted, p), x) else Select(sorted, p)
  {
    hide Insert, Select;
    var kept := Select(sorted, p);
    assert kept + [] == kept;
    if sorted == [] || sorted[|sorted| - 1].createdAt >= x.createdAt {
      InsertLast(sorted, x);
      SelectAppend(sorted, x, p);
      forall m | m in kept ensures m.createdAt >= x.createdAt {
        SelectMembers(sorted, p, m);
      }
      InsertLast(kept, x);
    } else {
      var front, last := sorted[..|sorted| - 1], sorted[|sorted| - 1];
      assert front + [last] == sorted;
      InsertBeforeLast(front, last, x);
      SelectInsert(front, x, p);
      SelectAppend(Insert(front, x), last, p);
      SelectFront(sorted, p);
      InsertBeforeLast(Select(front, p), last, x);
      assert Select(front, p) + [] == Select(front, p);
      assert Insert(Select(front, p), x) + [] == Insert(Select(front, p), x);
    }
  }

  lemma {:induction false} SelectSort(s: seq<Message>, p: Message -> bool)
    ensures Select(Sort(s), p) == Sort(Select(s, p))
  {
    if s != [] {
      hide Insert, Select;
      var front, last := s[..|s| - 1], s[|s| - 1];
      SelectSort(front, p);
      SortSorts(front);
      SelectInsert(Sort(front), last, p);
      SelectFront(s, p);
      SortAppend(Select(front, p), last);
      assert Select(front, p) + [] == Select(front, p);
    } else {
      assert Select(Sort(s), p) == [] && Select(s, p) == [];
    }
  }

  lemma {:induction false} SelectOrdered(s: seq<Message>, p: Message -> bool)
    requires Ordered(s)
    ensures Ordered(Select(s, p))
  {
    if s != [] {
      hide RowLess;
      var front, last := s[..|s| - 1], s[|s| - 1];
      SelectOrdered(front, p);
      forall m | m in Select(front, p) ensures !RowLess(m, last) {
        SelectMembers(front, p, m);
      }
    }
  }

  lemma {:induction false} SelectDistinct(s: seq<Message>, p: Message -> bool)
    requires DistinctIds(s)
    ensures DistinctIds(Select(s, p))
  {
    if s != [] {
      var front, last := s[..|s| - 1], s[|s| - 1];
      SelectDistinct(front, p);
      forall m | m in Select(front, p) ensures m.id != last.id {
        SelectMembers(front, p, m);
      }
    }
  }

  // ----- a listing from SQL against the listing from memory --------------------------------------------------------

  /** Of two matching rows of one instant, the one stored later does not have the greater id. */
  ghost predicate TiesGreatestFirst(table: seq<Message>, f: Filter) {
    forall i, j ::
      (0 <= i < j < |table| && Matches(f, table[i]) && Matches(f, table[j]) &&
       table[i].createdAt == table[j].createdAt) ==>
      !StringLess(table[i].id, table[j].id)
  }

  /** What has to hold of the stored rows: ties are stored greatest id first, and no empty string is in the way. */
  ghost predicate Agreeable(table: seq<Message>, f: Filter) {
    TiesGreatestFirst(table, f) && forall m :: m in table && Matches(f, m) ==> MeetsEmptyStrings(f, m)
  }

  /** No message of the newcomer's instant has a smaller id. */
  ghost predicate FitsBehindTies(s: seq<Message>, x: Message) {
    forall m :: m in s && m.createdAt == x.createdAt ==> !StringLess(m.id, x.id)
  }

  lemma InsertedInOrder(sorted: seq<Message>, x: Message)
    requires Descending(sorted) && Ordered(sorted) && FitsBehindTies(sorted, x)
    ensures Ordered(Insert(sorted, x))
  {
    hide Insert, StringLess;
    var after, k := Insert(sorted, x), Place(sorted, x);
    InsertAt(sorted, x, 0);
    forall i, j | 0 <= i < j < |after| ensures !RowLess(after[i], after[j]) {
      InsertAt(sorted, x, i);
      InsertAt(sorted, x, j);
      assert i < k ==> sorted[i] in sorted && sorted[i].createdAt >= sorted[k - 1].createdAt;
    }
  }

  lemma InOrderBefore(sorted: seq<Message>, x: Message)
    requires Descending(sorted) && Ordered(Insert(sorted, x))
    ensures Ordered(sorted) && FitsBehindTies(sorted, x)
  {
    hide Insert, StringLess;
    var after, k := Insert(sorted, x), Place(sorted, x);
    InsertAt(sorted, x, k);
    forall i, j | 0 <= i < j < |sorted| ensures !RowLess(sorted[i], sorted[j]) {
      InsertAt(sorted, x, if i < k then i else i + 1);
      InsertAt(sorted, x, if j < k then j else j + 1);
    }
    forall m | m in sorted && m.createdAt == x.createdAt ensures !StringLess(m.id, x.id) {
      var i :| 0 <= i < |sorted| && sorted[i] == m;
      InsertAt(sorted, x, i);
      assert !RowLess(after[i], after[k]);
    }
  }

  lemma TiesAppend(front: seq<Message>, x: Message, f: Filter)
    ensures TiesGreatestFirst(front + [x], f) <==>
            TiesGreatestFirst(front, f) && (Matches(f, x) ==> FitsBehindTies(FilterMessages(front, f), x))
  {
    hide FilterMessages, Matches, StringLess;
    var table := front + [x];
    FilterMeansMatching(front, f);
    assert forall i :: 0 <= i < |front| ==> table[i] == front[i];
    if TiesGreatestFirst(table, f) && Matches(f, x) {
      forall m | m in front && Matches(f, m) && m.createdAt == x.createdAt ensures !StringLess(m.id, x.id) {
        var i :| 0 <= i < |front| && front[i] == m;
        assert table[i] == m && table[|front|] == x;
      }
    }
    if TiesGreatestFirst(front, f) && (Matches(f, x) ==> FitsBehindTies(FilterMessages(front, f), x)) {
      forall i, j | 0 <= i < j < |table| && Matches(f, table[i]) && Matches(f, table[j]) &&
                    table[i].createdAt == table[j].createdAt
        ensures !StringLess(table[i].id, table[j].id)
      {
        assert j == |front| ==> table[i] in front;
      }
    }
  }

  /** A listing from memory is in the order of SQL exactly when the rows were stored so. */
  lemma {:induction false} OrderedIff(table: seq<Message>, f: Filter)
    ensures Ordered(FilterMessages(table, f)) <==> TiesGreatestFirst(table, f)
  {
    if table == [] {
      NarrowedIsOnePass(table, f);
    } else {
      hide FilterMessages, Insert, Ordered, TiesGreatestFirst, FitsBehindTies, Matches;
      var front, last := table[..|table| - 1], table[|table| - 1];
      assert table == front + [last];
      var sorted := FilterMessages(front, f);
      OrderedIff(front, f);
      FilterAppend(front, last, f);
      TiesAppend(front, last, f);
      ListingDescends(front, f);
      if Matches(f, last) {
        if Ordered(sorted) && FitsBehindTies(sorted, last) {
          InsertedInOrder(sorted, last);
        }
        if Ordered(Insert(sorted, last)) {
          InOrderBefore(sorted, last);
        }
      }
    }
  }

  lemma {:induction false} SelectSame(s: seq<Message>, p: Message -> bool, q: Message -> bool)
    requires forall m :: m in s ==> p(m) == q(m)
    ensures Select(s, p) == Select(s, q)
  {
    if s != [] {
      SelectSame(s[..|s| - 1], p, q);
    }
  }

  /** Exactly when the query of `list` may answer what the in-memory `list` does. */
  lemma {:induction false} SqlListIffMemoryList(table: seq<Message>, f: Filter)
    ensures Returns(table, BuildQuery(f, NoOptions), FilterMessages(table, f)) <==> Agreeable(table, f)
  {
    hide BuildQuery, LimitOf, Chosen, Matches, MeetsEmptyStrings, Select, Sort, FilterMessages, Ordered,
         TiesGreatestFirst;
    var q, listing := BuildQuery(f, NoOptions), FilterMessages(table, f);
    OrderedIff(table, f);
    ListQueryMeans(table, f, Message("", "", "", "", "", "", 0, None));
    forall row ensures Chosen(table, q.where, q.params)(row) == SqlMatches(f, row) {
      ListQueryMeans(table, f, row);
    }
    FilterMeansMatching(table, f);
    SortSorts(Select(table, Matching(f)));
    var chosen := Select(table, Chosen(table, q.where, q.params));
    if Returns(table, q, listing) {
      assert OrderOf(listing, chosen);
      forall m | m in table && Matches(f, m) ensures MeetsEmptyStrings(f, m) {
        assert m in multiset(listing) && m in multiset(chosen);
        SelectMembers(table, Chosen(table, q.where, q.params), m);
      }
    }
    if Agreeable(table, f) {
      SelectSame(table, Chosen(table, q.where, q.params), Matching(f));
      assert OrderOf(listing, chosen);
    }
  }

  // ----- a page from SQL against a page from memory ----------------------------------------------------------------

  /** `listPage` over the rows that came back. */
  function SqlPage(result: seq<Message>, limit: nat): Result<Page> {
    match DeriveNextCursor(result, limit)
    case Ok(next) => Ok(Page(result, next))
    case Thrown => Thrown
  }

  function Take(s: seq<Message>, n: nat): seq<Message> {
    s[..Min(n, |s|)]
  }

  function Kept(table: seq<Message>, cursor: Option<string>): Message -> bool {
    (row: Message) => Given(cursor) ==> BehindCursor(table, cursor.value, row)
  }

  lemma PageQueryLimit(table: seq<Message>, f: Filter, cursor: Option<string>, limit: nat)
    ensures LimitOf(BuildQuery(f, PageOf(cursor, limit))) == Some(limit)
    ensures BuildQuery(f, PageOf(cursor, limit)).SelectRows?
  {
  }

  /** The rows a page query chooses, put in the order of the listing, are the kept part of the listing. */
  lemma KeptIsOrderOfChosen(table: seq<Message>, f: Filter, cursor: Option<string>, limit: nat)
    requires Agreeable(table, f)
    ensures var q := BuildQuery(f, PageOf(cursor, limit));
            OrderOf(Select(FilterMessages(table, f), Kept(table, cursor)),
                    Select(table, Chosen(table, q.where, q.params)))
  {
    hide BuildQuery, LimitOf, Chosen, Matches, MeetsEmptyStrings, Select, Sort, FilterMessages, Ordered, BehindCursor,
         TiesGreatestFirst;
    OrderedIff(table, f);
    var q := BuildQuery(f, PageOf(cursor, limit));
    var both := (m: Message) => Matches(f, m) && Kept(table, cursor)(m);
    forall row ensures Chosen(table, q.where, q.params)(row) == (SqlMatches(f, row) && Kept(table, cursor)(row)) {
      PageQueryMeans(table, f, cursor, limit, row);
    }
    SelectSame(table, Chosen(table, q.where, q.params), both);
    PassNarrows(table, Matching(f), true, Kept(table, cursor), both);
    FilterMeansMatching(table, f);
    SelectSort(Select(table, Matching(f)), Kept(table, cursor));
    SortSorts(Select(Select(table, Matching(f)), Kept(table, cursor)));
    SelectOrdered(FilterMessages(table, f), Kept(table, cursor));
  }

  /**
   Whatever order the database found them in, the rows of a page are the kept part of list(filter), cut to the limit.
   */
  lemma PageRows(table: seq<Message>, f: Filter, cursor: Option<string>, limit: nat, q: Query, result: seq<Message>)
    requires DistinctIds(table) && Agreeable(table, f)
    ensures q == BuildQuery(f, PageOf(cursor, limit)) ==>
            (Returns(table, q, result) <==>
             result == Take(Select(FilterMessages(table, f), Kept(table, cursor)), limit))
  {
    hide BuildQuery, LimitOf, Chosen, Select, Ordered, FilterMessages, Kept, Agreeable;
    if q == BuildQuery(f, PageOf(cursor, limit)) {
      var kept := Select(FilterMessages(table, f), Kept(table, cursor));
      KeptIsOrderOfChosen(table, f, cursor, limit);
      PageQueryLimit(table, f, cursor, limit);
      FilterKeepsDistinct(table, f);
      SelectDistinct(FilterMessages(table, f), Kept(table, cursor));
      var chosen := Select(table, Chosen(table, q.where, q.params));
      if Returns(table, q, result) {
        var rows :| OrderOf(rows, chosen) && result == Take(rows, limit);
        OrderUnique(kept, rows);
      }
    }
  }

  lemma {:induction false} SelectSuffix(s: seq<Message>, p: Message -> bool, k: nat)
    requires k <= |s|
    requires forall i :: 0 <= i < |s| ==> p(s[i]) == (i >= k)
    ensures Select(s, p) == s[k..]
  {
    if s != [] {
      var front := s[..|s| - 1];
      if k < |s| {
        SelectSuffix(front, p, k);
        assert s[k..] == front[k..] + [s[|s| - 1]];
      } else {
        SelectSuffix(front, p, k - 1);
      }
    }
  }

  /** Where the cursor stands when both pages agree. */
  ghost predicate CursorFits(table: seq<Message>, f: Filter, cursor: Option<string>) {
    var listing := FilterMessages(table, f);
    !Given(cursor) || listing == [] || FindIndex(listing, cursor.value) >= 0 ||
    (var i := FindIndex(table, cursor.value); 0 <= i < |table| && RowLess(listing[0], table[i]))
  }

  lemma ListingRows(table: seq<Message>, f: Filter)
    requires DistinctIds(table)
    ensures DistinctIds(FilterMessages(table, f)) && forall m :: m in FilterMessages(table, f) ==> m in table
  {
    FilterKeepsDistinct(table, f);
    FilterMeansMatching(table, f);
  }

  /** A cursor inside the listing keeps what lies behind it. */
  lemma KeptInside(table: seq<Message>, f: Filter, id: string)
    requires DistinctIds(table) && Ordered(FilterMessages(table, f)) && id != ""
    requires FindIndex(FilterMessages(table, f), id) >= 0
    ensures var listing := FilterMessages(table, f);
            var k := FindIndex(listing, id);
            k < |listing| && Select(listing, Kept(table, Some(id))) == listing[k + 1..]
  {
    hide FilterMessages, RowLess;
    var listing := FilterMessages(table, f);
    var k := FindIndex(listing, id);
    FindIndexFinds(listing, id);
    ListingRows(table, f);
    assert listing[k] in table;
    StoredMember(table, listing[k]);
    forall h | 0 <= h < |listing| ensures Kept(table, Some(id))(listing[h]) == (h >= k + 1) {
      RowOrder(listing[h], listing[k], listing[h]);
      RowOrder(listing[k], listing[h], listing[k]);
    }
    SelectSuffix(listing, Kept(table, Some(id)), k + 1);
  }

  /** A cursor row outside the listing keeps everything exactly when all of it is behind that row. */
  lemma KeptOutside(table: seq<Message>, f: Filter, id: string)
    requires DistinctIds(table) && Ordered(FilterMessages(table, f)) && id != ""
    requires FindIndex(FilterMessages(table, f), id) < 0 && FilterMessages(table, f) != []
    ensures var listing, i := FilterMessages(table, f), FindIndex(table, id);
            if 0 <= i < |table| && RowLess(listing[0], table[i])
            then Select(listing, Kept(table, Some(id))) == listing
            else listing[0] !in Select(listing, Kept(table, Some(id)))
  {
    hide FilterMessages, RowLess;
    var listing, i := FilterMessages(table, f), FindIndex(table, id);
    ListingRows(table, f);
    SelectMembers(listing, Kept(table, Some(id)), listing[0]);
    if 0 <= i < |table| && RowLess(listing[0], table[i]) {
      forall h | 0 <= h < |listing| ensures RowLess(listing[h], table[i]) {
        RowOrder(listing[h], listing[0], table[i]);
        RowOrder(listing[0], listing[h], table[i]);
      }
      SelectSuffix(listing, Kept(table, Some(id)), 0);
      assert listing[0..] == listing;
    }
  }

  lemma {:induction false} SelectNoMore(s: seq<Message>, p: Message -> bool)
    ensures |Select(s, p)| <= |s|
  {
    if s != [] {
      SelectNoMore(s[..|s| - 1], p);
    }
  }

  /** No cursor, or one that is listed. */
  predicate InListing(table: seq<Message>, f: Filter, cursor: Option<string>) {
    !Given(cursor) || FindIndex(FilterMessages(table, f), cursor.value) >= 0
  }

  lemma SliceIsKept(table: seq<Message>, f: Filter, cursor: Option<string>, limit: nat)
    requires DistinctIds(table) && Agreeable(table, f) && InListing(table, f, cursor)
    ensures var listing := FilterMessages(table, f);
            SliceWithCursor(listing, cursor, limit) == Take(Select(listing, Kept(table, cursor)), limit)
  {
    hide FilterMessages, Select, FindIndex, DistinctIds, BehindCursor, Ordered, TiesGreatestFirst;
    OrderedIff(table, f);
    var listing := FilterMessages(table, f);
    if !Given(cursor) {
      SelectSuffix(listing, Kept(table, cursor), 0);
    } else {
      KeptInside(table, f, cursor.value);
      var k := FindIndex(listing, cursor.value);
      assert Take(listing[k + 1..], limit) == listing[k + 1..Min(k + 1 + limit, |listing|)];
    }
  }

  lemma SamePageIff(a: seq<Message>, b: seq<Message>, limit: nat)
    requires limit >= 1
    ensures SqlPage(a, limit) == SqlPage(b, limit) <==> a == b
  {
  }

  lemma ListPageIsSqlPage(table: seq<Message>, f: Filter, cursor: Option<string>, limit: nat)
    ensures ListPage(table, f, cursor, limit) ==
            SqlPage(SliceWithCursor(FilterMessages(table, f), cursor, limit), limit)
  {
    hide FilterMessages, SliceWithCursor;
  }

  lemma FirstSlice(listing: seq<Message>, cursor: Option<string>, limit: nat)
    requires Given(cursor) ==> FindIndex(listing, cursor.value) < 0
    ensures SliceWithCursor(listing, cursor, limit) == Take(listing, limit)
  {
  }

  lemma TakeWithoutFirst(listing: seq<Message>, kept: seq<Message>, limit: nat)
    requires limit >= 1 && listing != [] && listing[0] !in kept
    ensures Take(kept, limit) != Take(listing, limit)
  {
    assert Take(listing, limit)[0] == listing[0];
    assert forall m :: m in Take(kept, limit) ==> m in kept;
  }

  /** The kept rows, cut to the limit, are the in-memory page exactly when the cursor fits. */
  lemma KeptIsPageIff(table: seq<Message>, f: Filter, cursor: Option<string>, limit: nat)
    requires DistinctIds(table) && Agreeable(table, f) && limit >= 1
    ensures var listing := FilterMessages(table, f);
            Take(Select(listing, Kept(table, cursor)), limit) == SliceWithCursor(listing, cursor, limit) <==>
            CursorFits(table, f, cursor)
  {
    hide FilterMessages, Select, FindIndex, DistinctIds, Kept, RowLess, Ordered, TiesGreatestFirst, MeetsEmptyStrings,
         Matches, SliceWithCursor;
    OrderedIff(table, f);
    var listing := FilterMessages(table, f);
    if InListing(table, f, cursor) {
      SliceIsKept(table, f, cursor, limit);
    } else {
      FirstSlice(listing, cursor, limit);
      if listing == [] {
        SelectNoMore(listing, Kept(table, cursor));
      } else {
        KeptOutside(table, f, cursor.value);
        if !CursorFits(table, f, cursor) {
          TakeWithoutFirst(listing, Select(listing, Kept(table, cursor)), limit);
        }
      }
    }
  }

  /**
   Where the listings agree: the SQL page is the in-memory page, items and nextCursor, exactly when there is no cursor,
   or nothing is listed, or the cursor is listed, or everything listed is behind the cursor's row.
   */
  lemma SqlPageIffMemoryPage(table: seq<Message>, f: Filter, cursor: Option<string>, limit: nat, q: Query,
                             result: seq<Message>)
    requires DistinctIds(table) && Agreeable(table, f) && limit >= 1
    ensures q == BuildQuery(f, PageOf(cursor, limit)) && Returns(table, q, result) ==>
            (SqlPage(result, limit) == ListPage(table, f, cursor, limit) <==> CursorFits(table, f, cursor))
  {
    hide FilterMessages, Returns, BuildQuery, Select, DistinctIds, Kept, Agreeable, CursorFits, SqlPage, ListPage;
    PageRows(table, f, cursor, limit, q, result);
    KeptIsPageIff(table, f, cursor, limit);
    ListPageIsSqlPage(table, f, cursor, limit);
    SamePageIff(result, SliceWithCursor(FilterMessages(table, f), cursor, limit), limit);
  }

  /** Whatever a page query for a cursor of the listing returns is the in-memory page. */
  ghost predicate PagesAgree(table: seq<Message>, f: Filter) {
    forall cursor, limit: nat, result :: limit >= 1 && InListing(table, f, cursor) ==>
      (Returns(table, BuildQuery(f, PageOf(cursor, limit)), result) <==>
       result == SliceWithCursor(FilterMessages(table, f), cursor, limit))
  }

  /** A first page with room for every row is the whole listing. */
  lemma WholePage(table: seq<Message>, f: Filter, limit: nat, q: Query)
    requires limit > |table| && Returns(table, q, FilterMessages(table, f))
    ensures q == BuildQuery(f, PageOf(None, limit)) ==> Agreeable(table, f)
  {
    hide BuildQuery, LimitOf, Chosen, Matches, MeetsEmptyStrings, Select, Sort, FilterMessages, Ordered,
         TiesGreatestFirst;
    if q == BuildQuery(f, PageOf(None, limit)) {
      OrderedIff(table, f);
      var listing, p := FilterMessages(table, f), Chosen(table, q.where, q.params);
      PageQueryLimit(table, f, None, limit);
      var chosen := Select(table, p);
      var rows :| OrderOf(rows, chosen) && listing == rows[..Min(limit, |rows|)];
      assert |rows| == |multiset(rows)| == |multiset(chosen)| == |chosen|;
      SelectNoMore(table, p);
      assert listing == rows;
      FilterMeansMatching(table, f);
      forall m | m in table && Matches(f, m) ensures MeetsEmptyStrings(f, m) {
        assert m in multiset(listing) && m in multiset(chosen);
        SelectMembers(table, p, m);
        PageQueryMeans(table, f, None, limit, m);
      }
    }
  }

  /**
   Exactly when every page, for every cursor of the listing and every limit, is the in-memory one: when the whole
   listings agree.
   */
  lemma PagesAgreeIff(table: seq<Message>, f: Filter)
    requires DistinctIds(table)
    ensures PagesAgree(table, f) <==> Agreeable(table, f)
  {
    hide FilterMessages, Returns, BuildQuery, Select, FindIndex, DistinctIds, BehindCursor, Agreeable;
    var listing := FilterMessages(table, f);
    if Agreeable(table, f) {
      forall cursor, limit: nat, result | limit >= 1 && InListing(table, f, cursor)
        ensures Returns(table, BuildQuery(f, PageOf(cursor, limit)), result) <==>
                result == SliceWithCursor(listing, cursor, limit)
      {
        PageRows(table, f, cursor, limit, BuildQuery(f, PageOf(cursor, limit)), result);
        SliceIsKept(table, f, cursor, limit);
      }
    }
    if PagesAgree(table, f) {
      var limit := |table| + 1;
      ListingNoLonger(table, f);
      assert InListing(table, f, None) && SliceWithCursor(listing, None, limit) == listing;
      WholePage(table, f, limit, BuildQuery(f, PageOf(None, limit)));
    }
  }

  lemma ListingNoLonger(table: seq<Message>, f: Filter)
    ensures |FilterMessages(table, f)| <= |table|
  {
    FilterMeansMatching(table, f);
    SortSorts(Select(table, Matching(f)));
    SelectNoMore(table, Matching(f));
    assert |multiset(FilterMessages(table, f))| == |multiset(Select(table, Matching(f)))|;
  }

  // ----- when listings agree ---------------------------------------------------------------------------------------

  ghost predicate DistinctTimes(s: seq<Message>) {
    forall i, j :: 0 <= i < j < |s| ==> s[i].createdAt != s[j].createdAt
  }

  predicate NoEmptyStrings(f: Filter) {
    f.conversationId != Some("") && f.senderId != Some("") && f.status != Some("") && f.kind != Some("")
  }

  /** Distinct instants and no empty string are enough for the listing and for every page. */
  lemma {:induction false} DistinctTimesAgree(table: seq<Message>, f: Filter)
    requires DistinctIds(table) && DistinctTimes(table) && NoEmptyStrings(f)
    ensures Returns(table, BuildQuery(f, NoOptions), FilterMessages(table, f)) && PagesAgree(table, f)
  {
    hide Returns, BuildQuery, FilterMessages, PagesAgree, Matches, StringLess;
    SqlListIffMemoryList(table, f);
    PagesAgreeIff(table, f);
  }

  // ----- later tables ----------------------------------------------------------------------------------------------

  /** A listed cursor stays listed unless a message that does not match takes its id over. */
  lemma {:induction false} ListedCursorStays(st: Store, c: Create, f: Filter, id: string)
    requires WellFormed(st) && FindIndex(FilterMessages(st.messages, f), id) >= 0
    ensures Deduped(st, c) || ChosenId(c) != id || Matches(f, NewMessage(c)) <==>
            FindIndex(FilterMessages(Created(st, c).messages, f), id) >= 0
  {
    hide FilterMessages, Matches, Put;
    var listing := FilterMessages(st.messages, f);
    FindIndexFinds(listing, id);
    FilterMeansMatching(st.messages, f);
    var m := listing[FindIndex(listing, id)];
    assert m in listing;
    if !Deduped(st, c) {
      var after := FilterMessages(Created(st, c).messages, f);
      PutKeeps(st.messages, NewMessage(c));
      FilterMeansMatching(Created(st, c).messages, f);
      FindIndexFinds(after, id);
      assert ChosenId(c) != id ==> m in after;
      assert ChosenId(c) == id && Matches(f, NewMessage(c)) ==> NewMessage(c) in after;
      assert FindIndex(after, id) >= 0 ==> after[FindIndex(after, id)] in after;
    }
  }

  ghost predicate NeverMismatched(st: Store, cs: seq<Create>, f: Filter, id: string) {
    forall i :: 0 <= i < |cs| && ChosenId(cs[i]) == id ==> Matches(f, NewMessage(cs[i]))
  }

  ghost predicate StampedAll(st: Store, cs: seq<Create>) {
    cs == [] || (StampedAll(st, cs[..|cs| - 1]) && Stamped(CreatedAll(st, cs[..|cs| - 1]), cs[|cs| - 1]))
  }

  lemma {:induction false} CreatedAllIsWellFormed(st: Store, cs: seq<Create>)
    requires WellFormed(st) && StampedAll(st, cs)
    ensures WellFormed(CreatedAll(st, cs))
  {
    if cs != [] {
      hide WellFormed, Stamped, Created;
      CreatedAllIsWellFormed(st, cs[..|cs| - 1]);
      CreatedIsWellFormed(CreatedAll(st, cs[..|cs| - 1]), cs[|cs| - 1]);
    }
  }

  lemma {:induction false} ListedCursorStaysAll(st: Store, cs: seq<Create>, f: Filter, id: string)
    requires WellFormed(st) && StampedAll(st, cs) && FindIndex(FilterMessages(st.messages, f), id) >= 0
    requires NeverMismatched(st, cs, f, id)
    ensures FindIndex(FilterMessages(CreatedAll(st, cs).messages, f), id) >= 0
  {
    hide FilterMessages, WellFormed, Stamped, Created, FindIndex, Matches;
    if cs != [] {
      var front, last := cs[..|cs| - 1], cs[|cs| - 1];
      ListedCursorStaysAll(st, front, f, id);
      CreatedAllIsWellFormed(st, front);
      ListedCursorStays(CreatedAll(st, front), last, f, id);
    }
  }

  /**
   A nextCursor fits the filter it came from, on the table that the next page is read from, whatever has been created in
   between, unless its own id has been taken over by a message that does not match.
   */
  lemma NextCursorFits(st: Store, f: Filter, cursor: Option<string>, limit: nat, cs: seq<Create>)
    requires limit >= 1 && WellFormed(st) && StampedAll(st, cs)
    requires var next := ListPage(st.messages, f, cursor, limit).value.nextCursor;
             next.Some? ==> NeverMismatched(st, cs, f, next.value)
    ensures CursorFits(CreatedAll(st, cs).messages, f, ListPage(st.messages, f, cursor, limit).value.nextCursor)
  {
    hide FilterMessages, NeverMismatched, StampedAll;
    var listing := FilterMessages(st.messages, f);
    var next := ListPage(st.messages, f, cursor, limit).value.nextCursor;
    if next.Some? {
      FindIndexFinds(listing, next.value);
      ListedCursorStaysAll(st, cs, f, next.value);
    }
  }

  // ----- counts ----------------------------------------------------------------------------------------------------

  lemma {:induction false} SelectFewer(s: seq<Message>, p: Message -> bool, q: Message -> bool)
    requires forall m :: p(m) ==> q(m)
    ensures |Select(s, p)| <= |Select(s, q)|
    ensures |Select(s, p)| == |Select(s, q)| <==> forall m :: m in s && q(m) ==> p(m)
  {
    if s != [] {
      var front, last := s[..|s| - 1], s[|s| - 1];
      SelectFewer(front, p, q);
      assert s == front + [last];
      assert last in s && forall m :: m in front ==> m in s;
    }
  }

  /** `count` agrees exactly when no empty string of the filter is in the way, whatever instants messages share. */
  lemma CountsAgreeIff(table: seq<Message>, f: Filter)
    ensures CountOf(table, BuildQuery(f, CountOnly)) <= |FilterMessages(table, f)|
    ensures CountOf(table, BuildQuery(f, CountOnly)) == |FilterMessages(table, f)| <==>
            forall m :: m in table && Matches(f, m) ==> MeetsEmptyStrings(f, m)
  {
    hide FilterClauses, Matches, MeetsEmptyStrings, Select, Sort;
    var b := FilterClauses(f);
    forall row ensures Chosen(table, b.where, b.params)(row) == SqlMatches(f, row) {
      ClausesMeanFilter(table, f, row);
    }
    SelectFewer(table, Chosen(table, b.where, b.params), Matching(f));
    NarrowedIsOnePass(table, f);
    SortSorts(Select(table, Matching(f)));
    assert |multiset(Sort(Select(table, Matching(f))))| == |multiset(Select(table, Matching(f)))|;
  }

  lemma ReturnedRows(table: seq<Message>, q: Query, result: seq<Message>)
    requires Returns(table, q, result) && LimitOf(q).None?
    ensures Ordered(result) && forall m :: m in result ==> m in table && Chosen(table, q.where, q.params)(m)
  {
    hide EvalAll, Select;
    var p := Chosen(table, q.where, q.params);
    var chosen := Select(table, p);
    assert OrderOf(result, chosen);
    forall m | m in result ensures m in table && p(m) {
      assert m in multiset(result);
      assert m in chosen;
      SelectMembers(table, p, m);
    }
  }

  lemma ListOfOne(m: Message, f: Filter)
    requires Matches(f, m)
    ensures FilterMessages([m], f) == [m]
  {
    NarrowedIsOnePass([m], f);
    assert [m][..0] == [];
    assert Select([m], Matching(f)) == [m];
    assert Sort([m]) == [m];
  }

  /** An empty string in the filter: no filter in memory, and a filter for the empty string in SQL. */
  lemma {:induction false} EmptyStringDiffers()
    ensures var m := Message("1", "c", "s", "text", "sent", "", 10, None);
            var f := Filter(Some(""), None, None, None, false, None, None);
            && FilterMessages([m], f) == [m]
            && !Returns([m], BuildQuery(f, NoOptions), [m])
  {
    hide FilterMessages, EvalAll, Returns;
    var m := Message("1", "c", "s", "text", "sent", "", 10, None);
    var f := Filter(Some(""), None, None, None, false, None, None);
    ListOfOne(m, f);
    var q := BuildQuery(f, NoOptions);
    assert q.where == [Equals(ConversationId, 1), DeletedIsNull] && q.params == [Text("")];
    EmptyStringFails([m], m, q.params);
    assert m in [m];
    if Returns([m], q, [m]) {
      ReturnedRows([m], q, [m]);
    }
  }

  lemma EmptyStringFails(table: seq<Message>, m: Message, params: seq<Value>)
    requires m.conversationId != "" && params == [Text("")]
    ensures EvalAll(table, [Equals(ConversationId, 1), DeletedIsNull], params, m) == False
  {
    var where := [Equals(ConversationId, 1), DeletedIsNull];
    assert where[..1] == [Equals(ConversationId, 1)] && where[..1][..0] == [];
    assert EvalAll(table, where[..1], params, m) == False;
  }

  /** Two messages of one instant: memory keeps the order of creation, SQL puts the greater id first. */
  lemma {:induction false} TiesDiffer()
    ensures var a := Message("1", "c", "s", "text", "sent", "", 10, None);
            var b := Message("2", "c", "s", "text", "sent", "", 10, None);
            var f := Filter(None, None, None, None, true, None, None);
            && FilterMessages([a, b], f) == [a, b]
            && !Returns([a, b], BuildQuery(f, NoOptions), [a, b])
  {
    hide FilterMessages, EvalAll, Returns;
    var a := Message("1", "c", "s", "text", "sent", "", 10, None);
    var b := Message("2", "c", "s", "text", "sent", "", 10, None);
    var f := Filter(None, None, None, None, true, None, None);
    ListOfOne(a, f);
    FilterAppend([a], b, f);
    InsertLast([a], b);
    assert [a] + [b] == [a, b];
    assert "1"[0] < "2"[0];
    assert RowLess([a, b][0], [a, b][1]);
    var q := BuildQuery(f, NoOptions);
    if Returns([a, b], q, [a, b]) {
      ReturnedRows([a, b], q, [a, b]);
    }
  }
}

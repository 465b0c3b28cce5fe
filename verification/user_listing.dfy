/** Listing users: filters, keyset cursors, and the offset fallback. */
module UserListing {
  import opened Wrappers
  import opened LikeSearch

  datatype SortBy = ById | ByEmail | ByRole | ByActive

  datatype User = User(id: int, tenantId: int, email: string, role: string, isActive: bool, tokenVersion: int)

  /** A value of one of the sort columns. */
  datatype Value = Int(n: int) | Text(s: string) | Flag(b: bool)

  /** The place of a row in the order: column value, then id. */
  datatype Key = Key(value: Value, id: int)

  datatype Query = Query(
    tenantId: int,
    sortBy: SortBy,
    descending: bool,
    role: Option<string>,
    isActive: Option<bool>,
    search: Option<string>,
    searchMode: SearchMode)

  /** The decoded cursor: whatever members the client sent, missing ones as `None`. */
  datatype Cursor = Cursor(
    id: Option<int>,
    sortBy: Option<SortBy>,
    descending: Option<bool>,
    sortValue: Option<Value>,
    role: Option<string>,
    isActive: Option<bool>,
    search: Option<string>,
    searchMode: Option<SearchMode>)

  datatype Page = Page(items: seq<User>, nextCursor: Option<Cursor>)

  // ---- order ----

  predicate TextLess(a: string, b: string) {
    b != [] && (a == [] || a[0] < b[0] || (a[0] == b[0] && TextLess(a[1..], b[1..])))
  }

  /** Values of one column; different columns are never compared. */
  predicate ValueLess(a: Value, b: Value) {
    match (a, b)
    case (Int(m), Int(n)) => m < n
    case (Text(s), Text(t)) => TextLess(s, t)
    case (Flag(p), Flag(r)) => !p && r
    case _ => false
  }

  function ColumnValue(sortBy: SortBy, u: User): Value {
    match sortBy
    case ById => Int(u.id)
    case ByEmail => Text(u.email)
    case ByRole => Text(u.role)
    case ByActive => Flag(u.isActive)
  }

  function KeyOf(q: Query, u: User): Key {
    Key(ColumnValue(q.sortBy, u), u.id)
  }

  predicate OfColumn(sortBy: SortBy, v: Value) {
    match sortBy
    case ById => v.Int?
    case ByEmail => v.Text?
    case ByRole => v.Text?
    case ByActive => v.Flag?
  }

  /** ORDER BY column, id in the direction of the query. */
  predicate Before(q: Query, a: Key, b: Key) {
    if q.descending then ValueLess(b.value, a.value) || (a.value == b.value && b.id < a.id)
    else ValueLess(a.value, b.value) || (a.value == b.value && a.id < b.id)
  }

  // ---- filters ----

  predicate Selected(fold: char -> char, q: Query, u: User) {
    && u.tenantId == q.tenantId
    && (q.role.Some? ==> u.role == q.role.value)
    && u.isActive == (if q.isActive.None? then true else q.isActive.value)
    && (q.search.Some? ==> ILike(fold, SearchPattern(q.search.value, q.searchMode), u.email))
  }

  /** The keyset condition: strictly after the cursor in the direction of the query. */
  predicate AfterCursor(q: Query, cursorId: int, cursorValue: Value, u: User) {
    var v := ColumnValue(q.sortBy, u);
    if q.descending then
      ValueLess(v, cursorValue) || (v == cursorValue && u.id < cursorId)
    else
      ValueLess(cursorValue, v) || (v == cursorValue && u.id > cursorId)
  }

  function SelectedBy(fold: char -> char, q: Query): User -> bool {
    (u: User) => Selected(fold, q, u)
  }

  function After(q: Query, cursorId: int, cursorValue: Value): User -> bool {
    (u: User) => AfterCursor(q, cursorId, cursorValue, u)
  }

  function Filter(keep: User -> bool, rows: seq<User>): seq<User> {
    if rows == [] then []
    else (if keep(rows[0]) then [rows[0]] else []) + Filter(keep, rows[1..])
  }

  function Insert(q: Query, u: User, rows: seq<User>): seq<User> {
    if rows == [] || Before(q, KeyOf(q, u), KeyOf(q, rows[0])) then [u] + rows
    else [rows[0]] + Insert(q, u, rows[1..])
  }

  function OrderBy(q: Query, rows: seq<User>): seq<User> {
    if rows == [] then [] else Insert(q, rows[0], OrderBy(q, rows[1..]))
  }

  function Limit(rows: seq<User>, limit: nat): seq<User> {
    if |rows| <= limit then rows else rows[..limit]
  }

  function Offset(rows: seq<User>, skip: nat): seq<User> {
    if |rows| <= skip then [] else rows[skip..]
  }

  // ---- cursors ----

  function BuildNextCursor(q: Query, users: seq<User>, limit: int): Option<Cursor>
    requires limit >= 1
  {
    if |users| < limit then None
    else
      var last := users[|users| - 1];
      Some(Cursor(Some(last.id), Some(q.sortBy), Some(q.descending), Some(ColumnValue(q.sortBy, last)),
                  q.role, q.isActive, q.search, Some(q.searchMode)))
  }

  function ValidateCursorFilters(c: Cursor, q: Query): Result<(int, Value), string> {
    if c.sortBy != Some(q.sortBy) then Failure("cursor sort_by mismatch")
    else if c.descending != Some(q.descending) then Failure("cursor sort_order mismatch")
    else if c.role != q.role then Failure("cursor role mismatch")
    else if c.isActive != q.isActive then Failure("cursor is_active mismatch")
    else if c.search != q.search then Failure("cursor search mismatch")
    else if c.searchMode != Some(q.searchMode) then Failure("cursor search_mode mismatch")
    else if c.id.None? || c.sortValue.None? then Failure("invalid cursor payload")
    else Success((c.id.value, c.sortValue.value))
  }

  /** `get_users` with the cache off. */
  function GetUsers(fold: char -> char, table: seq<User>, q: Query, limit: int, cursor: Option<Cursor>, skip: Option<int>): Result<Page, string>
    requires limit >= 1
  {
    var selected := Filter(SelectedBy(fold, q), table);
    if skip.Some? && skip.value > 0 then
      Success(Page(Limit(Offset(OrderBy(q, selected), skip.value), limit), None))
    else if cursor.None? then
      var users := Limit(OrderBy(q, selected), limit);
      Success(Page(users, BuildNextCursor(q, users, limit)))
    else
      match ValidateCursorFilters(cursor.value, q)
      case Failure(error) => Failure(error)
      case Success((cursorId, cursorValue)) =>
        var later := Filter(After(q, cursorId, cursorValue), selected);
        var users := Limit(OrderBy(q, later), limit);
        Success(Page(users, BuildNextCursor(q, users, limit)))
  }

  // ---- the order is total ----

  lemma {:induction false} TextLessOrder(a: string, b: string, c: string)
    ensures !TextLess(a, a)
    ensures a == b || TextLess(a, b) || TextLess(b, a)
    ensures TextLess(a, b) && TextLess(b, c) ==> TextLess(a, c)
  {
    if a != [] {
      TextLessOrder(a[1..], if b == [] then [] else b[1..], if c == [] then [] else c[1..]);
      if b != [] && a[0] == b[0] && a[1..] == b[1..] {
        assert a == [a[0]] + a[1..] && b == [b[0]] + b[1..];
      }
    }
  }

  lemma ValueLessOrder(sortBy: SortBy, a: Value, b: Value, c: Value)
    requires OfColumn(sortBy, a) && OfColumn(sortBy, b) && OfColumn(sortBy, c)
    ensures !ValueLess(a, a)
    ensures a == b || ValueLess(a, b) || ValueLess(b, a)
    ensures ValueLess(a, b) && ValueLess(b, c) ==> ValueLess(a, c)
  {
    if a.Text? {
      TextLessOrder(a.s, b.s, c.s);
    }
  }

  lemma BeforeOrder(q: Query, a: Key, b: Key, c: Key)
    requires OfColumn(q.sortBy, a.value) && OfColumn(q.sortBy, b.value) && OfColumn(q.sortBy, c.value)
    ensures !Before(q, a, a)
    ensures a == b || Before(q, a, b) || Before(q, b, a)
    ensures Before(q, a, b) && Before(q, b, c) ==> Before(q, a, c)
  {
    ValueLessOrder(q.sortBy, a.value, b.value, c.value);
    ValueLessOrder(q.sortBy, c.value, b.value, a.value);
    ValueLessOrder(q.sortBy, b.value, a.value, c.value);
  }

  /** `BeforeOrder` for rows, as the facts sequence proofs use. */
  lemma OrderOfKeys(q: Query)
    ensures forall u: User :: !Before(q, KeyOf(q, u), KeyOf(q, u))
    ensures forall u: User, v: User ::
              KeyOf(q, u) == KeyOf(q, v) || Before(q, KeyOf(q, u), KeyOf(q, v)) || Before(q, KeyOf(q, v), KeyOf(q, u))
    ensures forall u: User, v: User, w: User ::
              Before(q, KeyOf(q, u), KeyOf(q, v)) && Before(q, KeyOf(q, v), KeyOf(q, w)) ==> Before(q, KeyOf(q, u), KeyOf(q, w))
  {
    hide Before, OfColumn;
    forall u: User, v: User, w: User
      ensures !Before(q, KeyOf(q, u), KeyOf(q, u))
      ensures KeyOf(q, u) == KeyOf(q, v) || Before(q, KeyOf(q, u), KeyOf(q, v)) || Before(q, KeyOf(q, v), KeyOf(q, u))
      ensures Before(q, KeyOf(q, u), KeyOf(q, v)) && Before(q, KeyOf(q, v), KeyOf(q, w)) ==> Before(q, KeyOf(q, u), KeyOf(q, w))
    {
      KeyOfColumn(q, u);
      KeyOfColumn(q, v);
      KeyOfColumn(q, w);
      BeforeOrder(q, KeyOf(q, u), KeyOf(q, v), KeyOf(q, w));
    }
  }

  lemma KeyOfColumn(q: Query, u: User)
    ensures OfColumn(q.sortBy, KeyOf(q, u).value)
  {
  }

  // ---- sorting and filtering ----

  /** No two rows share an id. */
  predicate UniqueIds(rows: seq<User>) {
    forall i, j :: 0 <= i < j < |rows| ==> rows[i].id != rows[j].id
  }

  predicate Ascending(q: Query, rows: seq<User>) {
    forall i, j :: 0 <= i < j < |rows| ==> Before(q, KeyOf(q, rows[i]), KeyOf(q, rows[j]))
  }

  lemma {:induction false} FilterMembers(keep: User -> bool, rows: seq<User>)
    ensures forall u :: u in Filter(keep, rows) <==> u in rows && keep(u)
    ensures UniqueIds(rows) ==> UniqueIds(Filter(keep, rows))
  {
    if rows != [] {
      FilterMembers(keep, rows[1..]);
      assert rows == [rows[0]] + rows[1..];
      if UniqueIds(rows) {
        forall u | u in Filter(keep, rows[1..])
          ensures u.id != rows[0].id
        {
          var i :| 0 <= i < |rows[1..]| && rows[1..][i] == u;
          assert rows[i + 1] == u;
        }
      }
    }
  }

  lemma {:induction false} InsertMembers(q: Query, u: User, rows: seq<User>)
    ensures forall v :: v in Insert(q, u, rows) <==> v == u || v in rows
    ensures |Insert(q, u, rows)| == |rows| + 1
  {
    if rows != [] {
      InsertMembers(q, u, rows[1..]);
      assert rows == [rows[0]] + rows[1..];
    }
  }

  lemma {:induction false} InsertAscending(q: Query, u: User, rows: seq<User>)
    requires Ascending(q, rows) && forall v :: v in rows ==> v.id != u.id
    ensures Ascending(q, Insert(q, u, rows))
  {
    hide Before;
    OrderOfKeys(q);
    if rows != [] && !Before(q, KeyOf(q, u), KeyOf(q, rows[0])) {
      assert rows[0] in rows;
      assert KeyOf(q, u) != KeyOf(q, rows[0]);
      assert forall v :: v in rows[1..] ==> v in rows;
      InsertAscending(q, u, rows[1..]);
      InsertMembers(q, u, rows[1..]);
      var tail := Insert(q, u, rows[1..]);
      forall j | 0 <= j < |tail|
        ensures Before(q, KeyOf(q, rows[0]), KeyOf(q, tail[j]))
      {
        assert tail[j] in tail;
        if tail[j] != u {
          var i :| 0 <= i < |rows[1..]| && rows[1..][i] == tail[j];
          assert rows[i + 1] == tail[j];
        }
      }
    }
  }

  /** ORDER BY lists every row once, strictly in order. */
  lemma {:induction false} OrderBySorts(q: Query, rows: seq<User>)
    requires UniqueIds(rows)
    ensures Ascending(q, OrderBy(q, rows)) && |OrderBy(q, rows)| == |rows|
    ensures forall u :: u in OrderBy(q, rows) <==> u in rows
  {
    hide Before;
    if rows != [] {
      assert rows == [rows[0]] + rows[1..];
      assert forall i :: 0 <= i < |rows[1..]| ==> rows[1..][i] == rows[i + 1];
      OrderBySorts(q, rows[1..]);
      InsertMembers(q, rows[0], OrderBy(q, rows[1..]));
      InsertAscending(q, rows[0], OrderBy(q, rows[1..]));
    }
  }

  lemma EmptyOrInhabited(rows: seq<User>)
    ensures rows == [] || exists u :: u in rows
  {
    if rows != [] {
      assert rows[0] in rows;
    }
  }

  /** An ascending list is determined by its members. */
  lemma {:induction false} AscendingUnique(q: Query, a: seq<User>, b: seq<User>)
    requires Ascending(q, a) && Ascending(q, b) && forall u :: u in a <==> u in b
    ensures a == b
    decreases |a|
  {
    hide Before;
    OrderOfKeys(q);
    if a == [] {
      EmptyOrInhabited(b);
    } else {
      assert a[0] in a;
      assert b != [];
      assert b[0] in b;
      assert a[0] == b[0];
      forall u
        ensures u in a[1..] <==> u in b[1..]
      {
        TailMembers(q, a, u);
        TailMembers(q, b, u);
      }
      AscendingUnique(q, a[1..], b[1..]);
    }
  }

  lemma TailMembers(q: Query, rows: seq<User>, u: User)
    requires Ascending(q, rows) && rows != []
    ensures u in rows[1..] <==> u in rows && u != rows[0]
  {
    hide Before;
    OrderOfKeys(q);
    assert rows == [rows[0]] + rows[1..];
    assert forall i :: 0 <= i < |rows[1..]| ==> rows[1..][i] == rows[i + 1];
  }

  // ---- what a page holds, without the code of filter and order ----

  /** The row is asked for: its tenant, its role, its activity, and its e-mail address where there is a search text. */
  ghost predicate Wanted(fold: char -> char, q: Query, u: User) {
    && u.tenantId == q.tenantId
    && (q.role == None || q.role == Some(u.role))
    && (q.isActive == None ==> u.isActive)
    && (q.isActive.Some? ==> q.isActive.value == u.isActive)
    && (q.search.Some? && q.searchMode == Prefix ==> Fold(fold, q.search.value) <= Fold(fold, u.email))
    && (q.search.Some? && q.searchMode == Contains ==> OccursIn(Fold(fold, q.search.value), Fold(fold, u.email)))
  }

  /** The texts agree up to place k, where a ends or has the smaller code point. */
  ghost predicate EarlierAt(a: string, b: string, k: nat) {
    k <= |a| && k < |b| && (forall i :: 0 <= i < k ==> a[i] == b[i]) && (k == |a| || a[k] < b[k])
  }

  ghost predicate EarlierText(a: string, b: string) {
    exists k: nat :: EarlierAt(a, b, k)
  }

  ghost predicate EarlierColumn(sortBy: SortBy, a: User, b: User) {
    match sortBy
    case ById => a.id < b.id
    case ByEmail => EarlierText(a.email, b.email)
    case ByRole => EarlierText(a.role, b.role)
    case ByActive => !a.isActive && b.isActive
  }

  ghost predicate SameColumn(sortBy: SortBy, a: User, b: User) {
    match sortBy
    case ById => a.id == b.id
    case ByEmail => a.email == b.email
    case ByRole => a.role == b.role
    case ByActive => a.isActive == b.isActive
  }

  /** By the sort column and then by id, both ascending or both descending. */
  ghost predicate Precedes(q: Query, a: User, b: User) {
    if q.descending then EarlierColumn(q.sortBy, b, a) || (SameColumn(q.sortBy, a, b) && b.id < a.id)
    else EarlierColumn(q.sortBy, a, b) || (SameColumn(q.sortBy, a, b) && a.id < b.id)
  }

  /** All the rows asked for, in order; of these only the ones past a row, if one is given. */
  ghost predicate Lists(fold: char -> char, q: Query, table: seq<User>, past: Option<User>, all: seq<User>) {
    && (forall i, j :: 0 <= i < j < |all| ==> Precedes(q, all[i], all[j]))
    && (forall u :: u in all <==> u in table && Wanted(fold, q, u) && (past.Some? ==> Precedes(q, past.value, u)))
  }

  /** From place `from` on, at most `limit` of the rows. */
  ghost function Slice(all: seq<User>, from: nat, limit: nat): seq<User> {
    if |all| <= from then [] else if |all| <= from + limit then all[from..] else all[from..from + limit]
  }

  /** The cursor stands for this row. */
  ghost predicate Names(q: Query, cursor: Cursor, a: User) {
    cursor.id == Some(a.id) && cursor.sortValue == Some(match q.sortBy
                                                        case ById => Int(a.id)
                                                        case ByEmail => Text(a.email)
                                                        case ByRole => Text(a.role)
                                                        case ByActive => Flag(a.isActive))
  }

  /** The cursor of another query, or one with members missing. */
  ghost predicate Refused(cursor: Cursor, q: Query) {
    || cursor.id == None || cursor.sortValue == None
    || cursor.sortBy != Some(q.sortBy) || cursor.descending != Some(q.descending) || cursor.searchMode != Some(q.searchMode)
    || cursor.role != q.role || cursor.isActive != q.isActive || cursor.search != q.search
  }

  /** With an offset, or without a cursor, the page is a slice of the listing; with a cursor it starts right after its row. */
  ghost predicate Shows(fold: char -> char, q: Query, table: seq<User>, limit: nat, cursor: Option<Cursor>, from: nat, items: seq<User>) {
    && (from > 0 || cursor.None? ==> exists all :: Lists(fold, q, table, None, all) && items == Slice(all, from, limit))
    && (from == 0 && cursor.Some? ==>
          forall a :: Names(q, cursor.value, a) ==> exists all :: Lists(fold, q, table, Some(a), all) && items == Slice(all, 0, limit))
  }

  /**
   The cursors of other queries are refused, and no other. A page otherwise shows what was asked for; without an offset it
   has a cursor exactly when it is full, one that names its last row and belongs to this query.
   */
  ghost predicate PageRight(fold: char -> char, q: Query, table: seq<User>, limit: nat, cursor: Option<Cursor>, skip: Option<int>,
                            result: Result<Page, string>) {
    var from := if skip.Some? && skip.value > 0 then skip.value else 0;
    && (result.Failure? <==> from == 0 && cursor.Some? && Refused(cursor.value, q))
    && (result.Success? ==>
          var items, next := result.value.items, result.value.nextCursor;
          && Shows(fold, q, table, limit, cursor, from, items)
          && (next.Some? <==> from == 0 && |items| == limit)
          && (next.Some? && items != [] ==> Names(q, next.value, items[|items| - 1]) && !Refused(next.value, q)))
  }

  lemma {:induction false} TextLessIsEarlier(a: string, b: string)
    ensures TextLess(a, b) <==> EarlierText(a, b)
  {
    if a != [] && b != [] {
      TextLessIsEarlier(a[1..], b[1..]);
      if TextLess(a[1..], b[1..]) {
        var k: nat :| EarlierAt(a[1..], b[1..], k);
        assert a[0] == b[0] ==> EarlierAt(a, b, k + 1);
      }
      if EarlierText(a, b) {
        var k: nat :| EarlierAt(a, b, k);
        assert k > 0 ==> EarlierAt(a[1..], b[1..], k - 1);
      }
    }
    assert b != [] && (a == [] || a[0] < b[0]) ==> EarlierAt(a, b, 0);
  }

  lemma PrecedesIsBefore(q: Query, a: User, b: User)
    ensures Precedes(q, a, b) <==> Before(q, KeyOf(q, a), KeyOf(q, b))
  {
    hide TextLess, EarlierText;
    TextLessIsEarlier(a.email, b.email);
    TextLessIsEarlier(b.email, a.email);
    TextLessIsEarlier(a.role, b.role);
    TextLessIsEarlier(b.role, a.role);
  }

  lemma WantedIsSelected(fold: char -> char, q: Query, u: User)
    requires KeepsSpecials(fold)
    ensures Wanted(fold, q, u) <==> Selected(fold, q, u)
  {
    hide Fold, OccursIn, ILike, SearchPattern;
    if q.search.Some? {
      PrefixSearch(fold, q.search.value, u.email);
      ContainsSearch(fold, q.search.value, u.email);
    }
  }

  lemma PastCursor(q: Query, cursorId: int, cursorValue: Value, a: User, u: User)
    requires cursorId == a.id && cursorValue == ColumnValue(q.sortBy, a)
    ensures AfterCursor(q, cursorId, cursorValue, u) <==> Precedes(q, a, u)
  {
    hide TextLess, Precedes;
    PrecedesIsBefore(q, a, u);
  }

  /** Ordering the rows kept by both filters lists them. */
  lemma OrderedLists(fold: char -> char, q: Query, table: seq<User>, past: Option<User>, rows: seq<User>)
    requires UniqueIds(rows)
    requires forall u :: u in rows <==> u in table && Wanted(fold, q, u) && (past.Some? ==> Precedes(q, past.value, u))
    ensures Lists(fold, q, table, past, OrderBy(q, rows))
  {
    hide Wanted, Before, Precedes, OrderBy;
    OrderBySorts(q, rows);
    var all := OrderBy(q, rows);
    forall i, j | 0 <= i < j < |all|
      ensures Precedes(q, all[i], all[j])
    {
      PrecedesIsBefore(q, all[i], all[j]);
    }
  }

  lemma SelectedRows(fold: char -> char, q: Query, table: seq<User>)
    requires UniqueIds(table) && KeepsSpecials(fold)
    ensures var selected := Filter(SelectedBy(fold, q), table);
            UniqueIds(selected) && forall u :: u in selected <==> u in table && Wanted(fold, q, u)
  {
    hide Wanted, Selected, KeepsSpecials;
    FilterMembers(SelectedBy(fold, q), table);
    forall u {:trigger Wanted(fold, q, u)}
      ensures Wanted(fold, q, u) <==> Selected(fold, q, u)
    {
      WantedIsSelected(fold, q, u);
    }
  }

  /**
   `get_users` refuses exactly the cursors of other queries, and otherwise shows the rows asked for: those of the tenant,
   role and activity whose e-mail address matches, in order of the sort column and the id.
   */
  lemma PageWritten(fold: char -> char, table: seq<User>, q: Query, limit: int, cursor: Option<Cursor>, skip: Option<int>)
    requires limit >= 1 && UniqueIds(table) && KeepsSpecials(fold)
    ensures PageRight(fold, q, table, limit, cursor, skip, GetUsers(fold, table, q, limit, cursor, skip))
  {
    hide Wanted, Selected, KeepsSpecials, Before, Precedes, OrderBy, Filter, Lists;
    var selected := Filter(SelectedBy(fold, q), table);
    SelectedRows(fold, q, table);
    OrderedLists(fold, q, table, None, selected);
    var from := if skip.Some? && skip.value > 0 then skip.value else 0;
    if from == 0 && cursor.Some? && !Refused(cursor.value, q) {
      CursorPage(fold, table, q, limit, cursor.value, selected);
    } else {
      SliceIsLimit(OrderBy(q, selected), from, limit);
    }
  }

  lemma SliceIsLimit(all: seq<User>, from: nat, limit: nat)
    ensures Limit(Offset(all, from), limit) == Slice(all, from, limit)
    ensures Limit(all, limit) == Slice(all, 0, limit)
  {
  }

  lemma CursorPage(fold: char -> char, table: seq<User>, q: Query, limit: int, cursor: Cursor, selected: seq<User>)
    requires limit >= 1 && !Refused(cursor, q) && UniqueIds(selected)
    requires forall u :: u in selected <==> u in table && Wanted(fold, q, u)
    ensures var later := Filter(After(q, cursor.id.value, cursor.sortValue.value), selected);
            forall a :: Names(q, cursor, a) ==>
              exists all :: Lists(fold, q, table, Some(a), all) && Limit(OrderBy(q, later), limit) == Slice(all, 0, limit)
  {
    hide Wanted, Precedes, OrderBy, Filter, Lists, AfterCursor;
    var keep := After(q, cursor.id.value, cursor.sortValue.value);
    var later := Filter(keep, selected);
    FilterMembers(keep, selected);
    forall a | Names(q, cursor, a)
      ensures exists all :: Lists(fold, q, table, Some(a), all) && Limit(OrderBy(q, later), limit) == Slice(all, 0, limit)
    {
      forall u {:trigger Precedes(q, a, u)}
        ensures keep(u) <==> Precedes(q, a, u)
      {
        PastCursor(q, cursor.id.value, cursor.sortValue.value, a, u);
      }
      OrderedLists(fold, q, table, Some(a), later);
      SliceIsLimit(OrderBy(q, later), 0, limit);
    }
  }
}

/** Walking a user listing by cursor: on a fixed table, and on a table that changes between fetches. */
module KeysetPaging {
  import opened Wrappers
  import opened UserListing

  // ---- cursors ----

  /** A cursor emitted for one query is accepted for another exactly when sort, direction and filters agree. */
  lemma CursorAcceptedIffSameFilters(q: Query, other: Query, users: seq<User>, limit: int)
    requires limit >= 1 && |users| >= limit
    ensures var cursor := BuildNextCursor(q, users, limit).value;
            var last := users[|users| - 1];
            if q.(tenantId := other.tenantId) == other
            then ValidateCursorFilters(cursor, other) == Success((last.id, ColumnValue(q.sortBy, last)))
            else ValidateCursorFilters(cursor, other).Failure?
  {
  }

  lemma AfterIsBefore(q: Query, k: Key, u: User)
    ensures After(q, k.id, k.value)(u) <==> Before(q, k, KeyOf(q, u))
  {
  }

  // ---- one page ----

  ghost function Selection(fold: char -> char, q: Query, table: seq<User>): seq<User> {
    Filter(SelectedBy(fold, q), table)
  }

  /** The rows a page is taken from: all selected ones, or those after a key. */
  ghost predicate Later(q: Query, after: Option<Key>, u: User) {
    after.None? || Before(q, after.value, KeyOf(q, u))
  }

  /** A page is in order, within the limit, and leaves out no later row up to its last one, or none at all if it is short. */
  ghost predicate IsPage(fold: char -> char, q: Query, table: seq<User>, limit: int, after: Option<Key>, items: seq<User>) {
    && Ascending(q, items) && |items| <= limit
    && (forall u :: u in items ==> u in Selection(fold, q, table) && Later(q, after, u))
    && (forall u :: u in Selection(fold, q, table) && Later(q, after, u) ==>
          u in items || (|items| == limit && limit > 0 && Before(q, KeyOf(q, items[limit - 1]), KeyOf(q, u))))
  }

  lemma LimitedPage(fold: char -> char, q: Query, table: seq<User>, limit: int, after: Option<Key>, later: seq<User>)
    requires limit >= 1 && UniqueIds(later)
    requires forall u :: u in later <==> u in Selection(fold, q, table) && Later(q, after, u)
    ensures IsPage(fold, q, table, limit, after, Limit(OrderBy(q, later), limit))
  {
    hide Before, Selection, Later, OrderBy;
    OrderBySorts(q, later);
    var sorted := OrderBy(q, later);
    var items := Limit(sorted, limit);
    forall u | u in later && u !in items
      ensures |items| == limit && Before(q, KeyOf(q, items[limit - 1]), KeyOf(q, u))
    {
      assert u in sorted;
      var i :| 0 <= i < |sorted| && sorted[i] == u;
      InLimit(sorted, limit, i);
    }
    assert forall u :: u in items ==> u in sorted;
  }

  lemma InLimit(rows: seq<User>, limit: nat, i: nat)
    requires i < |rows|
    ensures i < limit ==> rows[i] in Limit(rows, limit)
  {
    if i < limit {
      assert Limit(rows, limit)[i] == rows[i];
    }
  }

  /** The key a cursor stands for. */
  function KeyOfCursor(cursor: Option<Cursor>): Option<Key> {
    if cursor.Some? && cursor.value.id.Some? && cursor.value.sortValue.Some?
    then Some(Key(cursor.value.sortValue.value, cursor.value.id.value))
    else None
  }

  /** Fetching with no cursor or with an accepted one returns a page after its key, and the cursor of its last row. */
  lemma FetchIsPage(fold: char -> char, q: Query, table: seq<User>, limit: int, cursor: Option<Cursor>)
    requires limit >= 1 && UniqueIds(table)
    requires GetUsers(fold, table, q, limit, cursor, None).Success?
    ensures var page := GetUsers(fold, table, q, limit, cursor, None).value;
            && IsPage(fold, q, table, limit, KeyOfCursor(cursor), page.items)
            && page.nextCursor == BuildNextCursor(q, page.items, limit)
  {
    hide Before, IsPage, Selected, OrderBy, Limit, BuildNextCursor;
    var selected := Selection(fold, q, table);
    FilterMembers(SelectedBy(fold, q), table);
    if cursor.None? {
      LimitedPage(fold, q, table, limit, None, selected);
    } else {
      var k := KeyOfCursor(cursor).value;
      var keep := After(q, k.id, k.value);
      FilterMembers(keep, selected);
      forall u | u in selected
        ensures keep(u) <==> Later(q, Some(k), u)
      {
        AfterIsBefore(q, k, u);
      }
      LimitedPage(fold, q, table, limit, Some(k), Filter(keep, selected));
    }
  }

  // ---- walks over changing tables ----

  /** One fetch: `get_users` on this state of the table with this cursor returned this page. */
  ghost predicate Fetched(fold: char -> char, q: Query, limit: int, table: seq<User>, cursor: Option<Cursor>, page: Page)
    requires limit >= 1
  {
    UniqueIds(table) && GetUsers(fold, table, q, limit, cursor, None) == Success(page)
  }

  /** Page i, of its own size, is fetched from the i-th state of the table with the cursor of the page before. */
  ghost predicate Walk(fold: char -> char, q: Query, limits: seq<int>, tables: seq<seq<User>>, pages: seq<Page>) {
    && |pages| == |tables| == |limits|
    && forall i :: 0 <= i < |pages| ==>
         && limits[i] >= 1 && Fetched(fold, q, limits[i], tables[i], CursorInto(pages, i), pages[i])
         && (i > 0 ==> CursorInto(pages, i).Some?)
  }

  function CursorInto(pages: seq<Page>, i: nat): Option<Cursor>
    requires i <= |pages|
  {
    if i == 0 then None else pages[i - 1].nextCursor
  }

  function Items(pages: seq<Page>): seq<User> {
    if pages == [] then [] else Items(pages[..|pages| - 1]) + pages[|pages| - 1].items
  }

  /** What is known after some pages: rows strictly in order, and a next cursor that names the last of them. */
  ghost predicate WalkedTo(q: Query, pages: seq<Page>) {
    && Ascending(q, Items(pages))
    && (pages != [] && pages[|pages| - 1].nextCursor.Some? ==>
          Items(pages) != [] && KeyOfCursor(pages[|pages| - 1].nextCursor) == Some(KeyOf(q, Items(pages)[|Items(pages)| - 1])))
  }

  /** Each page of a walk, and the cursor it hands on: the key of its last row. */
  lemma WalkPage(fold: char -> char, q: Query, limits: seq<int>, tables: seq<seq<User>>, pages: seq<Page>, i: nat)
    requires Walk(fold, q, limits, tables, pages) && i < |pages|
    ensures var items := pages[i].items;
            && limits[i] >= 1
            && IsPage(fold, q, tables[i], limits[i], KeyOfCursor(CursorInto(pages, i)), items)
            && (i > 0 ==> CursorInto(pages, i).Some?)
            && (i == 0 ==> KeyOfCursor(CursorInto(pages, i)) == None)
            && (pages[i].nextCursor.Some? <==> |items| == limits[i])
            && (|items| == limits[i] ==> KeyOfCursor(pages[i].nextCursor) == Some(KeyOf(q, items[limits[i] - 1])))
  {
    hide GetUsers, IsPage;
    FetchIsPage(fold, q, tables[i], limits[i], CursorInto(pages, i));
    assert |pages[i].items| <= limits[i] by {
      PageWithinLimit(fold, q, tables[i], limits[i], KeyOfCursor(CursorInto(pages, i)), pages[i].items);
    }
  }

  lemma PageWithinLimit(fold: char -> char, q: Query, table: seq<User>, limit: int, after: Option<Key>, items: seq<User>)
    requires IsPage(fold, q, table, limit, after, items)
    ensures |items| <= limit
  {
  }

  lemma {:induction false} WalkAscends(fold: char -> char, q: Query, limits: seq<int>, tables: seq<seq<User>>, pages: seq<Page>, n: nat)
    requires Walk(fold, q, limits, tables, pages) && n <= |pages|
    ensures WalkedTo(q, pages[..n])
    decreases n
  {
    hide Before, Walk, Selection, KeyOfCursor;
    if n > 0 {
      WalkAscends(fold, q, limits, tables, pages, n - 1);
      WalkPage(fold, q, limits, tables, pages, n - 1);
      assert pages[..n][..n - 1] == pages[..n - 1];
      AppendPage(q, Items(pages[..n - 1]), pages[n - 1].items, KeyOfCursor(CursorInto(pages, n - 1)));
    }
  }

  /** Rows after the last row so far keep the whole in order. */
  lemma AppendPage(q: Query, before: seq<User>, items: seq<User>, after: Option<Key>)
    requires Ascending(q, before) && Ascending(q, items)
    requires forall u :: u in items ==> Later(q, after, u)
    requires before != [] ==> after == Some(KeyOf(q, before[|before| - 1]))
    ensures Ascending(q, before + items)
  {
    hide Before;
    OrderOfKeys(q);
    forall i, j | 0 <= i < j < |before + items|
      ensures Before(q, KeyOf(q, (before + items)[i]), KeyOf(q, (before + items)[j]))
    {
      if i < |before| <= j {
        assert items[j - |before|] in items;
        assert Before(q, KeyOf(q, before[|before| - 1]), KeyOf(q, items[j - |before|]));
      }
    }
  }

  /** In every state of the table there is a selected row with this id and this sort value. */
  ghost predicate Kept(fold: char -> char, q: Query, tables: seq<seq<User>>, k: Key) {
    forall i :: 0 <= i < |tables| ==> HasKey(q, Selection(fold, q, tables[i]), k)
  }

  ghost predicate HasKey(q: Query, rows: seq<User>, k: Key) {
    exists u :: u in rows && KeyOf(q, u) == k
  }

  /** A kept row has been returned, or is still ahead of the cursor. */
  lemma {:induction false} KeptRowAhead(fold: char -> char, q: Query, limits: seq<int>, tables: seq<seq<User>>, pages: seq<Page>, n: nat, k: Key)
    requires Walk(fold, q, limits, tables, pages) && n <= |pages| && Kept(fold, q, tables, k)
    ensures HasKey(q, Items(pages[..n]), k)
            || n == 0
            || (pages[n - 1].nextCursor.Some? && KeyOfCursor(pages[n - 1].nextCursor).Some?
                && Before(q, KeyOfCursor(pages[n - 1].nextCursor).value, k))
    decreases n
  {
    hide Before, Walk, Selection, KeyOfCursor, Kept;
    if n > 0 {
      KeptRowAhead(fold, q, limits, tables, pages, n - 1, k);
      WalkPage(fold, q, limits, tables, pages, n - 1);
      SameLength(fold, q, limits, tables, pages);
      KeptRow(fold, q, tables, k, n - 1);
      assert pages[..n][..n - 1] == pages[..n - 1];
      assert forall u :: u in Items(pages[..n - 1]) || u in pages[n - 1].items ==> u in Items(pages[..n]);
      if !HasKey(q, Items(pages[..n]), k) {
        var u :| u in Selection(fold, q, tables[n - 1]) && KeyOf(q, u) == k;
        assert Later(q, KeyOfCursor(CursorInto(pages, n - 1)), u);
      }
    }
  }

  lemma SameLength(fold: char -> char, q: Query, limits: seq<int>, tables: seq<seq<User>>, pages: seq<Page>)
    requires Walk(fold, q, limits, tables, pages)
    ensures |tables| == |pages|
  {
  }

  lemma KeptRow(fold: char -> char, q: Query, tables: seq<seq<User>>, k: Key, i: nat)
    requires Kept(fold, q, tables, k) && i < |tables|
    ensures HasKey(q, Selection(fold, q, tables[i]), k)
  {
  }

  /** Exactly one of the rows has this id, and it has this key. */
  ghost predicate ReturnedOnce(q: Query, rows: seq<User>, k: Key) {
    exists i :: 0 <= i < |rows| && KeyOf(q, rows[i]) == k && forall j :: 0 <= j < |rows| && rows[j].id == k.id ==> j == i
  }

  lemma AscendingDistinct(q: Query, rows: seq<User>)
    requires Ascending(q, rows)
    ensures forall i, j :: 0 <= i < j < |rows| ==> KeyOf(q, rows[i]) != KeyOf(q, rows[j])
  {
    hide Before;
    OrderOfKeys(q);
  }

  lemma OnceByKey(q: Query, rows: seq<User>, k: Key)
    requires Ascending(q, rows) && HasKey(q, rows, k)
    requires forall u :: u in rows && u.id == k.id ==> KeyOf(q, u) == k
    ensures ReturnedOnce(q, rows, k)
  {
    AscendingDistinct(q, rows);
    hide Ascending;
    var u :| u in rows && KeyOf(q, u) == k;
    var i :| 0 <= i < |rows| && rows[i] == u;
    forall j | 0 <= j < |rows| && rows[j].id == k.id
      ensures j == i
    {
      assert rows[j] in rows;
    }
  }

  /**
   A completed walk, with pages of any sizes, over a table that changes between fetches returns a row that kept its sort key and its
   place in the filter exactly once, and no row twice with the same sort key.
   */
  lemma KeysetWalkStable(fold: char -> char, q: Query, limits: seq<int>, tables: seq<seq<User>>, pages: seq<Page>)
    requires Walk(fold, q, limits, tables, pages)
    requires pages != [] && pages[|pages| - 1].nextCursor.None?
    ensures forall i, j :: 0 <= i < j < |Items(pages)| ==> KeyOf(q, Items(pages)[i]) != KeyOf(q, Items(pages)[j])
    ensures forall k :: Kept(fold, q, tables, k) ==> ReturnedOnce(q, Items(pages), k)
  {
    hide Walk, Kept, Items, HasKey, Ascending, ReturnedOnce, KeyOf;
    assert pages[..|pages|] == pages;
    WalkAscends(fold, q, limits, tables, pages, |pages|);
    AscendingDistinct(q, Items(pages));
    forall k | Kept(fold, q, tables, k)
      ensures ReturnedOnce(q, Items(pages), k)
    {
      KeptRowAhead(fold, q, limits, tables, pages, |pages|, k);
      forall u | u in Items(pages) && u.id == k.id
        ensures KeyOf(q, u) == k
      {
        ItemFromSomeTable(fold, q, limits, tables, pages, |pages|, u, k);
      }
      OnceByKey(q, Items(pages), k);
    }
  }

  /** A returned row comes from a state of the table; where ids are unique it is the row that was kept. */
  lemma {:induction false} ItemFromSomeTable(fold: char -> char, q: Query, limits: seq<int>, tables: seq<seq<User>>, pages: seq<Page>,
                                             n: nat, u: User, k: Key)
    requires Walk(fold, q, limits, tables, pages) && n <= |pages| && Kept(fold, q, tables, k)
    requires u in Items(pages[..n]) && u.id == k.id
    ensures KeyOf(q, u) == k
    decreases n
  {
    hide Before, GetUsers, Selection;
    assert pages[..n][..n - 1] == pages[..n - 1];
    if u in pages[n - 1].items {
      FetchIsPage(fold, q, tables[n - 1], limits[n - 1], CursorInto(pages, n - 1));
      assert HasKey(q, Selection(fold, q, tables[n - 1]), k);
      var v :| v in Selection(fold, q, tables[n - 1]) && KeyOf(q, v) == k;
      SelectionUnique(fold, q, tables[n - 1], u, v);
    } else {
      ItemFromSomeTable(fold, q, limits, tables, pages, n - 1, u, k);
    }
  }

  lemma SelectionUnique(fold: char -> char, q: Query, table: seq<User>, u: User, v: User)
    requires UniqueIds(table) && u in Selection(fold, q, table) && v in Selection(fold, q, table) && u.id == v.id
    ensures u == v
  {
    hide Selected;
    FilterMembers(SelectedBy(fold, q), table);
  }

  // ---- walks over a fixed table ----

  /** All selected rows in order. */
  ghost function Listing(fold: char -> char, q: Query, table: seq<User>): seq<User> {
    OrderBy(q, Selection(fold, q, table))
  }

  lemma {:induction false} ItemsSelected(fold: char -> char, q: Query, limits: seq<int>, table: seq<User>, tables: seq<seq<User>>,
                                         pages: seq<Page>, n: nat)
    requires Walk(fold, q, limits, tables, pages) && n <= |pages| && forall i :: 0 <= i < |tables| ==> tables[i] == table
    ensures forall u :: u in Items(pages[..n]) ==> u in Selection(fold, q, table)
    decreases n
  {
    hide Walk, Selection, KeyOfCursor, Ascending, Later;
    SameLength(fold, q, limits, tables, pages);
    if n > 0 {
      ItemsSelected(fold, q, limits, table, tables, pages, n - 1);
      WalkPage(fold, q, limits, tables, pages, n - 1);
      assert pages[..n][..n - 1] == pages[..n - 1];
    }
  }

  /** Whatever the sizes of its pages, a finished walk over a fixed table returns the whole sorted listing. */
  lemma AnyWalkIsListing(fold: char -> char, q: Query, limits: seq<int>, table: seq<User>, tables: seq<seq<User>>, pages: seq<Page>)
    requires Walk(fold, q, limits, tables, pages) && UniqueIds(table) && forall i :: 0 <= i < |tables| ==> tables[i] == table
    requires pages != [] && pages[|pages| - 1].nextCursor.None?
    ensures Items(pages) == Listing(fold, q, table)
  {
    hide Walk, Items, Ascending, Selection, Listing, KeyOf;
    assert pages[..|pages|] == pages;
    WalkAscends(fold, q, limits, tables, pages, |pages|);
    ItemsSelected(fold, q, limits, table, tables, pages, |pages|);
    ListingFacts(fold, q, table);
    forall u | u in Selection(fold, q, table)
      ensures u in Items(pages)
    {
      KeptByAll(fold, q, table, tables, u);
      KeptRowAhead(fold, q, limits, tables, pages, |pages|, KeyOf(q, u));
      var v :| v in Items(pages) && KeyOf(q, v) == KeyOf(q, u);
      SameKeySameId(q, u, v);
      SelectionUnique(fold, q, table, u, v);
    }
    AscendingUnique(q, Items(pages), Listing(fold, q, table));
  }

  lemma KeptByAll(fold: char -> char, q: Query, table: seq<User>, tables: seq<seq<User>>, u: User)
    requires u in Selection(fold, q, table) && forall i :: 0 <= i < |tables| ==> tables[i] == table
    ensures Kept(fold, q, tables, KeyOf(q, u))
  {
    hide Selection;
  }

  lemma SameKeySameId(q: Query, u: User, v: User)
    requires KeyOf(q, u) == KeyOf(q, v)
    ensures u.id == v.id
  {
  }

  lemma ListingFacts(fold: char -> char, q: Query, table: seq<User>)
    requires UniqueIds(table)
    ensures Ascending(q, Listing(fold, q, table))
    ensures forall u :: u in Listing(fold, q, table) <==> u in Selection(fold, q, table)
  {
    hide Selected, Before;
    FilterMembers(SelectedBy(fold, q), table);
    OrderBySorts(q, Selection(fold, q, table));
  }

  /** The rows after the cursor of row from - 1 are the listing from `from` on. */
  lemma LaterIsSuffix(fold: char -> char, q: Query, table: seq<User>, from: nat)
    requires UniqueIds(table) && 0 < from <= |Listing(fold, q, table)|
    ensures var k := KeyOf(q, Listing(fold, q, table)[from - 1]);
            OrderBy(q, Filter(After(q, k.id, k.value), Selection(fold, q, table))) == Listing(fold, q, table)[from..]
  {
    hide Selected, Before, OrderBy, Selection, Listing;
    ListingFacts(fold, q, table);
    OrderOfKeys(q);
    var rows := Listing(fold, q, table);
    var k := KeyOf(q, rows[from - 1]);
    var keep := After(q, k.id, k.value);
    var later := Filter(keep, Selection(fold, q, table));
    SelectionUniqueIds(fold, q, table);
    FilterMembers(keep, Selection(fold, q, table));
    OrderBySorts(q, later);
    forall u
      ensures u in OrderBy(q, later) <==> u in rows[from..]
    {
      AfterIsBefore(q, k, u);
      SuffixMembers(q, rows, from, u);
    }
    AscendingUnique(q, OrderBy(q, later), rows[from..]);
  }

  lemma SuffixMembers(q: Query, rows: seq<User>, from: nat, u: User)
    requires Ascending(q, rows) && 0 < from <= |rows|
    ensures u in rows[from..] <==> u in rows && Before(q, KeyOf(q, rows[from - 1]), KeyOf(q, u))
  {
    hide Before;
    OrderOfKeys(q);
    if u in rows[from..] {
      var j :| 0 <= j < |rows[from..]| && rows[from..][j] == u;
      assert rows[from + j] == u;
    }
    if u in rows && Before(q, KeyOf(q, rows[from - 1]), KeyOf(q, u)) {
      var i :| 0 <= i < |rows| && rows[i] == u;
      assert from - 1 < i;
      assert rows[from..][i - from] == u;
    }
  }

  lemma SelectionUniqueIds(fold: char -> char, q: Query, table: seq<User>)
    requires UniqueIds(table)
    ensures UniqueIds(Selection(fold, q, table))
  {
    hide Selected;
    FilterMembers(SelectedBy(fold, q), table);
  }

  /** The cursor in hand once the first `from` rows have been returned. */
  ghost function CursorAt(fold: char -> char, q: Query, table: seq<User>, limit: int, from: nat): Option<Cursor>
    requires limit >= 1 && (from == 0 || limit <= from <= |Listing(fold, q, table)|)
  {
    if from == 0 then None else BuildNextCursor(q, Listing(fold, q, table)[from - limit..from], limit)
  }

  /** A cursor page is the slice of the full listing at that place; so is the offset page. */
  lemma CursorPageIsSlice(fold: char -> char, q: Query, table: seq<User>, limit: int, from: nat)
    requires limit >= 1 && UniqueIds(table) && (from == 0 || limit <= from <= |Listing(fold, q, table)|)
    ensures var rows := Listing(fold, q, table);
            GetUsers(fold, table, q, limit, CursorAt(fold, q, table, limit, from), None)
            == Success(Page(Slice(rows, from, limit),
                            if from + limit <= |rows| then CursorAt(fold, q, table, limit, from + limit) else None))
    ensures from > 0 ==>
              GetUsers(fold, table, q, limit, None, Some(from)) == Success(Page(Slice(Listing(fold, q, table), from, limit), None))
  {
    hide Selected, Before, OrderBy;
    var rows := Listing(fold, q, table);
    SliceIsLimit(rows, from, limit);
    if from > 0 {
      LaterIsSuffix(fold, q, table, from);
      assert rows[from - limit..from][limit - 1] == rows[from - 1];
    }
    assert rows[0..] == rows;
    if from + limit <= |rows| {
      assert Slice(rows, from, limit) == rows[from..from + limit];
    }
  }

  /** Where the k-th page starts. */
  function Place(k: nat, limit: int): (from: nat)
    requires limit >= 1
    ensures k > 0 ==> limit <= from
  {
    if k == 0 then 0 else Place(k - 1, limit) + limit
  }

  lemma {:induction false} PlaceIsProduct(k: nat, limit: int)
    requires limit >= 1
    ensures Place(k, limit) == k * limit
  {
    if k > 0 {
      PlaceIsProduct(k - 1, limit);
      assert k * limit == (k - 1) * limit + limit;
    }
  }

  function Even(limit: int, n: nat): seq<int> {
    seq(n, i => limit)
  }

  /** All pages of one size. */
  ghost predicate EvenWalk(fold: char -> char, q: Query, limit: int, tables: seq<seq<User>>, pages: seq<Page>) {
    limit >= 1 && Walk(fold, q, Even(limit, |pages|), tables, pages)
  }

  /**
   On a fixed table the k-th cursor page is the offset slice [k * limit, (k + 1) * limit) of the sorted listing, the pages
   together are the whole listing, and there are n / limit + 1 of them.
   */
  lemma KeysetWalkIsListing(fold: char -> char, q: Query, limit: int, table: seq<User>, tables: seq<seq<User>>, pages: seq<Page>)
    requires EvenWalk(fold, q, limit, tables, pages)
    requires forall i :: 0 <= i < |tables| ==> tables[i] == table
    requires pages != [] && pages[|pages| - 1].nextCursor.None?
    ensures var rows := Listing(fold, q, table);
            && |pages| == |rows| / limit + 1
            && Items(pages) == rows
            && forall k :: 0 <= k < |pages| ==> 0 <= k * limit && pages[k].items == Slice(rows, k * limit, limit)
  {
    assert limit >= 1;
    hide GetUsers, Listing, Slice, Walk, EvenWalk, Items, Place;
    var rows := Listing(fold, q, table);
    var n := |pages|;
    FixedWalkPrefix(fold, q, limit, table, tables, pages, n);
    assert pages[..n] == pages;
    LastPage(|rows|, limit, n);
    forall k | 0 <= k < n
      ensures 0 <= k * limit && pages[k].items == Slice(rows, k * limit, limit)
    {
      PlaceIsProduct(k, limit);
    }
  }

  lemma LastPage(rows: nat, limit: int, n: int)
    requires limit >= 1 && n >= 1
    ensures Place(n - 1, limit) <= rows < Place(n, limit) ==> rows / limit + 1 == n
  {
    PlaceIsProduct(n - 1, limit);
    var r := rows - Place(n - 1, limit);
    if 0 <= r < limit {
      assert rows == limit * (n - 1) + r;
      QuotientOf(rows, limit, n - 1, r);
    }
  }

  lemma QuotientOf(a: nat, d: int, quotient: int, remainder: int)
    requires d >= 1 && a == d * quotient + remainder && 0 <= remainder < d
    ensures a / d == quotient
  {
    var e := a / d - quotient;
    assert a == d * (a / d) + a % d;
    assert d * e == remainder - a % d by {
      assert d * e == d * (a / d) - d * quotient;
    }
    assert e >= 1 ==> d * e >= d;
    assert e <= -1 ==> d * e <= -d;
  }

  /** After n pages of a fixed table: n - 1 full ones, and what they and the last one contain. */
  lemma {:induction false} FixedWalkPrefix(fold: char -> char, q: Query, limit: int, table: seq<User>,
                                           tables: seq<seq<User>>, pages: seq<Page>, n: nat)
    requires EvenWalk(fold, q, limit, tables, pages) && 1 <= n <= |pages|
    requires forall i :: 0 <= i < |tables| ==> tables[i] == table
    ensures var rows := Listing(fold, q, table);
            && Place(n - 1, limit) <= |rows|
            && (pages[n - 1].nextCursor.Some? <==> Place(n, limit) <= |rows|)
            && (Place(n, limit) <= |rows| ==> pages[n - 1].nextCursor == CursorAt(fold, q, table, limit, Place(n, limit)))
            && Items(pages[..n]) == rows[..if |rows| < Place(n, limit) then |rows| else Place(n, limit)]
    ensures forall k :: 0 <= k < n ==> pages[k].items == Slice(Listing(fold, q, table), Place(k, limit), limit)
    decreases n
  {
    hide GetUsers, Listing, BuildNextCursor, CursorAt, Slice, Walk;
    var rows := Listing(fold, q, table);
    var from := Place(n - 1, limit);
    SameLength(fold, q, Even(limit, |pages|), tables, pages);
    if n == 1 {
      assert Items(pages[..0]) == [] == rows[..0];
      CursorAtStart(fold, q, table, limit);
    } else {
      FixedWalkPrefix(fold, q, limit, table, tables, pages, n - 1);
      WalkPage(fold, q, Even(limit, |pages|), tables, pages, n - 1);
    }
    FixedWalkFetch(fold, q, limit, table, tables, pages, n - 1, from);
    assert pages[..n][..n - 1] == pages[..n - 1];
    SliceContinues(rows, from, limit);
  }

  lemma CursorAtStart(fold: char -> char, q: Query, table: seq<User>, limit: int)
    requires limit >= 1
    ensures CursorAt(fold, q, table, limit, 0) == None
  {
  }

  lemma SliceContinues(rows: seq<User>, from: nat, limit: int)
    requires limit >= 1 && from <= |rows|
    ensures rows[..from] + Slice(rows, from, limit) == rows[..if |rows| < from + limit then |rows| else from + limit]
  {
  }

  /** One fetch of a walk over a fixed table. */
  lemma FixedWalkFetch(fold: char -> char, q: Query, limit: int, table: seq<User>,
                       tables: seq<seq<User>>, pages: seq<Page>, i: nat, from: nat)
    requires EvenWalk(fold, q, limit, tables, pages) && i < |pages| && tables[i] == table
    requires from == 0 || limit <= from <= |Listing(fold, q, table)|
    requires CursorInto(pages, i) == CursorAt(fold, q, table, limit, from)
    ensures var rows := Listing(fold, q, table);
            && pages[i].items == Slice(rows, from, limit)
            && (pages[i].nextCursor.Some? <==> from + limit <= |rows|)
            && (from + limit <= |rows| ==> pages[i].nextCursor == CursorAt(fold, q, table, limit, from + limit))
  {
    hide GetUsers, Listing, Slice;
    CursorPageIsSlice(fold, q, table, limit, from);
    CursorIsSome(fold, q, table, limit, from + limit);
  }

  lemma CursorIsSome(fold: char -> char, q: Query, table: seq<User>, limit: int, from: nat)
    requires limit >= 1
    ensures 0 < limit <= from <= |Listing(fold, q, table)| ==> CursorAt(fold, q, table, limit, from).Some?
  {
    hide Listing;
  }

  /** Fetching on from any page of a fixed table reaches a page without a cursor. */
  lemma {:induction false} WalkCanBeFinished(fold: char -> char, q: Query, limit: int, table: seq<User>,
                                             tables: seq<seq<User>>, pages: seq<Page>)
    returns (allTables: seq<seq<User>>, allPages: seq<Page>)
    requires limit >= 1 && UniqueIds(table) && EvenWalk(fold, q, limit, tables, pages)
    requires forall i :: 0 <= i < |tables| ==> tables[i] == table
    ensures EvenWalk(fold, q, limit, allTables, allPages) && forall i :: 0 <= i < |allTables| ==> allTables[i] == table
    ensures allPages != [] && allPages[|allPages| - 1].nextCursor.None?
    decreases |Listing(fold, q, table)| + limit - Place(|pages|, limit)
  {
    hide GetUsers, Listing, Slice, BuildNextCursor, Walk, CursorAt;
    var n := |pages|;
    if n > 0 {
      SameLength(fold, q, Even(limit, |pages|), tables, pages);
      FixedWalkPrefix(fold, q, limit, table, tables, pages, n);
    }
    if n > 0 && pages[n - 1].nextCursor.None? {
      allTables, allPages := tables, pages;
    } else {
      CursorAtStart(fold, q, table, limit);
      CursorPageIsSlice(fold, q, table, limit, Place(n, limit));
      var page := GetUsers(fold, table, q, limit, CursorInto(pages, n), None).value;
      ExtendWalk(fold, q, limit, tables, pages, table, page);
      allTables, allPages := WalkCanBeFinished(fold, q, limit, table, tables + [table], pages + [page]);
    }
  }

  lemma ExtendWalk(fold: char -> char, q: Query, limit: int, tables: seq<seq<User>>, pages: seq<Page>, table: seq<User>, page: Page)
    requires EvenWalk(fold, q, limit, tables, pages)
    requires Fetched(fold, q, limit, table, CursorInto(pages, |pages|), page)
    requires |pages| > 0 ==> CursorInto(pages, |pages|).Some?
    ensures EvenWalk(fold, q, limit, tables + [table], pages + [page])
  {
    hide Fetched;
    var more, n := pages + [page], |pages|;
    forall i | 0 <= i < |more|
      ensures Fetched(fold, q, Even(limit, |more|)[i], (tables + [table])[i], CursorInto(more, i), more[i])
      ensures i > 0 ==> CursorInto(more, i).Some?
    {
      assert CursorInto(more, i) == CursorInto(pages, i);
      if i < n {
        assert Fetched(fold, q, Even(limit, n)[i], tables[i], CursorInto(pages, i), pages[i]);
      }
    }
  }
}

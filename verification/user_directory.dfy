/** The user table with its versioned listing cache, and the operations that change rows. */
module UserDirectory {
  import opened Clock
  import opened Wrappers
  import opened LikeSearch
  import opened UserListing

  // ---- changes to a row ----

  /** The fields an update request sets; fields left out are `None`. */
  datatype Update = Update(email: Option<string>, role: Option<string>, isActive: Option<bool>)

  function Updated(u: User, change: Update): User {
    var bump := change.role.Some? && change.role.value != u.role;
    u.(email := if change.email.Some? then change.email.value else u.email,
       role := if change.role.Some? then change.role.value else u.role,
       isActive := if change.isActive.Some? then change.isActive.value else u.isActive,
       tokenVersion := if bump then u.tokenVersion + 1 else u.tokenVersion)
  }

  function Deactivated(u: User): User {
    u.(isActive := false, tokenVersion := u.tokenVersion + 1)
  }

  function Activated(u: User): User {
    u.(isActive := true)
  }

  function VersionBumped(u: User): User {
    u.(tokenVersion := u.tokenVersion + 1)
  }

  // ---- the cache ----

  /** What a cache key is made of; its hash is taken as injective. */
  datatype Slot = Slot(version: nat, query: Query, limit: int, cursor: Option<Cursor>, skip: Option<int>)

  function EffectiveSkip(skip: Option<int>): Option<int> {
    if skip.Some? && skip.value > 0 then skip else None
  }

  /** The page the database gives for a slot; `None` when the cursor is rejected. */
  function Answer(fold: char -> char, table: seq<User>, slot: Slot): Option<Page> {
    if slot.limit < 1 then None
    else
      match UserListing.GetUsers(fold, table, slot.query, slot.limit, slot.cursor, slot.skip)
      case Success(page) => Some(page)
      case Failure(_) => None
  }

  /** A cached page and when its time to live ends. */
  datatype Entry = Entry(page: Page, expiresAt: Time)

  // ---- update requests ----

  /** A member of an update request: left out, null, or a value. */
  datatype Member<T> = Unset | Null | Set(value: T)

  datatype UpdateRequest = UpdateRequest(email: Member<string>, role: Member<string>, isActive: Member<bool>)

  function ValueOf<T>(m: Member<T>): Option<T> {
    if m.Set? then Some(m.value) else None
  }

  function UpdateOf(request: UpdateRequest): Update {
    Update(ValueOf(request.email), ValueOf(request.role), ValueOf(request.isActive))
  }

  predicate HasNull(request: UpdateRequest) {
    request.email.Null? || request.role.Null? || request.isActive.Null?
  }

  /** The unique index over tenant and e-mail. */
  predicate UniqueEmails(rows: seq<User>) {
    forall i, j :: 0 <= i < j < |rows| && rows[i].tenantId == rows[j].tenantId ==> rows[i].email != rows[j].email
  }

  /** Another row of the tenant has this e-mail. */
  predicate EmailTaken(rows: seq<User>, i: nat, email: string)
    requires i < |rows|
  {
    exists j :: 0 <= j < |rows| && j != i && rows[j].tenantId == rows[i].tenantId && rows[j].email == email
  }

  // ---- what contracts say of a changed row, field by field ----

  /** The fields of the request that are set, and a new version with a new role. */
  ghost function Edited(u: User, request: UpdateRequest): User {
    User(u.id, u.tenantId,
         if request.email.Set? then request.email.value else u.email,
         if request.role.Set? then request.role.value else u.role,
         if request.isActive.Set? then request.isActive.value else u.isActive,
         if request.role.Set? && request.role.value != u.role then u.tokenVersion + 1 else u.tokenVersion)
  }

  ghost function WithActivity(u: User, active: bool, version: int): User {
    User(u.id, u.tenantId, u.email, u.role, active, version)
  }

  datatype UpdateResult = Changed(user: User) | IntegrityError

  /** The two tables give the same pages to every tenant but this one. */
  ghost predicate SameElsewhere(fold: char -> char, a: seq<User>, b: seq<User>, tenantId: int) {
    forall slot: Slot :: slot.query.tenantId != tenantId ==> Answer(fold, b, slot) == Answer(fold, a, slot)
  }

  /**
   `table` is what is committed, `session` what the transaction at hand sees. A change with `commit` unset is flushed
   to the session only; the route commits it later together with its audit row.
   */
  class Directory {
    const fold: char -> char
    const cacheEnabled: bool
    const cacheTtl: Time
    var table: seq<User>
    var session: seq<User>
    var versions: map<int, nat>
    var cache: map<Slot, Entry>
    ghost var pendingFor: Option<int>  // the tenant of the flushed changes

    constructor (fold: char -> char, cacheEnabled: bool, cacheTtl: Time, table: seq<User>)
      requires UniqueIds(table) && UniqueEmails(table)
      ensures this.fold == fold && this.table == table && Valid() && pendingFor == None
    {
      this.fold, this.cacheEnabled, this.cacheTtl, this.table, session := fold, cacheEnabled, cacheTtl, table, table;
      versions, cache, pendingFor := map[], map[], None;
    }

    /** An absent version key reads as 0. */
    function Version(tenantId: int): nat
      reads this
    {
      if tenantId in versions then versions[tenantId] else 0
    }

    /** Entries of the current version of their tenant are what the committed table would answer now. */
    ghost predicate Coherent()
      reads this
    {
      forall slot :: slot in cache ==>
        && slot.version <= Version(slot.query.tenantId)
        && (slot.version == Version(slot.query.tenantId) ==> Answer(fold, table, slot) == Some(cache[slot].page))
    }

    ghost predicate Valid()
      reads this
    {
      && Coherent()
      && UniqueIds(table) && UniqueEmails(table) && UniqueIds(session) && UniqueEmails(session)
      && (pendingFor.None? ==> session == table)
      && (pendingFor.Some? ==> SameElsewhere(fold, table, session, pendingFor.value))
    }

    /** A transaction changes the rows of one tenant. */
    ghost predicate Ready(tenantId: int)
      reads this
    {
      Valid() && (pendingFor.None? || pendingFor == Some(tenantId))
    }

    /** Served from the cache or not, the page is the one the committed table gives. */
    method GetUsers(q: Query, limit: int, cursor: Option<Cursor>, skip: Option<int>, now: Time) returns (result: Result<Page, string>)
      requires limit >= 1 && Valid()
      modifies this`cache
      ensures Valid()
      ensures result == UserListing.GetUsers(fold, table, q, limit, cursor, skip)
      ensures KeepsSpecials(fold) ==> PageRight(fold, q, table, limit, cursor, skip, result)
      ensures forall slot :: slot in cache && slot !in old(cache) ==> cache[slot].expiresAt == now + cacheTtl
      ensures forall slot :: slot in old(cache) && now < old(cache)[slot].expiresAt ==> slot in cache && cache[slot] == old(cache)[slot]
    {
      hide Selected, SelectedBy, OrderBy, Filter, After, ValidateCursorFilters, BuildNextCursor, SameElsewhere, UniqueEmails, PageRight;
      if KeepsSpecials(fold) {
        PageWritten(fold, table, q, limit, cursor, skip);
      }
      var slot := Slot(Version(q.tenantId), q, limit, cursor, EffectiveSkip(skip));
      if cacheEnabled && slot in cache && now < cache[slot].expiresAt {
        return Success(cache[slot].page);
      }
      result := UserListing.GetUsers(fold, table, q, limit, cursor, skip);
      if cacheEnabled && result.Success? {
        cache := cache[slot := Entry(result.value, now + cacheTtl)];
      }
    }

    /** INCR of the tenant's version key. */
    method InvalidateUsersListCache(tenantId: int)
      modifies this`versions
      ensures Version(tenantId) == old(Version(tenantId)) + 1
      ensures forall t :: t != tenantId ==> Version(t) == old(Version(t))
    {
      versions := versions[tenantId := Version(tenantId) + 1];
    }

    /** Commit what was flushed, then bump the tenant's cache version; also the second half of a change without commit. */
    method CommitUserMutation(tenantId: int)
      requires Ready(tenantId)
      modifies this`table, this`versions, this`pendingFor
      ensures Valid() && pendingFor == None && table == session
      ensures Version(tenantId) == old(Version(tenantId)) + 1 && forall t :: t != tenantId ==> Version(t) == old(Version(t))
    {
      hide Answer, UniqueEmails;
      table := session;
      pendingFor := None;
      InvalidateUsersListCache(tenantId);
    }

    /** A change of one tenant's rows: flushed, and committed if asked to. */
    method Write(tenantId: int, next: seq<User>, commit: bool)
      requires Ready(tenantId) && UniqueIds(next) && UniqueEmails(next) && SameElsewhere(fold, session, next, tenantId)
      modifies this`table, this`session, this`versions, this`pendingFor
      ensures Valid() && session == next && Ready(tenantId)
      ensures Saved(old(table), old(Version(tenantId)), tenantId, commit)
    {
      hide Answer, UniqueEmails;
      session := next;
      pendingFor := Some(tenantId);
      if commit {
        CommitUserMutation(tenantId);
      }
    }

    /** With `commit` the change is in the table and the version bumped; without it both are as before. */
    ghost predicate Saved(before: seq<User>, version: nat, tenantId: int, commit: bool)
      reads this
    {
      if commit then table == session && Version(tenantId) == version + 1 && pendingFor == None
      else table == before && Version(tenantId) == version
    }

    /** Index of the row with this id in this tenant. */
    method FindUser(userId: int, tenantId: int) returns (found: Option<nat>)
      ensures found.Some? ==> found.value < |session| && session[found.value].id == userId && session[found.value].tenantId == tenantId
      ensures found.None? ==> forall i :: 0 <= i < |session| ==> session[i].id != userId || session[i].tenantId != tenantId
    {
      for i := 0 to |session|
        invariant forall j :: 0 <= j < i ==> session[j].id != userId || session[j].tenantId != tenantId
      {
        if session[i].id == userId && session[i].tenantId == tenantId {
          return Some(i);
        }
      }
      found := None;
    }

    /**
     A null member or an e-mail that another user of the tenant has violates a constraint: the transaction is rolled
     back. Otherwise exactly the named row changes.
     */
    method UpdateUser(i: nat, request: UpdateRequest, commit: bool) returns (result: UpdateResult)
      requires i < |session| && Ready(session[i].tenantId)
      modifies this`table, this`session, this`versions, this`pendingFor
      ensures Valid()
      ensures result.IntegrityError? <==>
                || request.email == Null || request.role == Null || request.isActive == Null
                || exists j :: 0 <= j < |old(session)| && j != i && old(session)[j].tenantId == old(session)[i].tenantId
                               && request.email == Set(old(session)[j].email)
      ensures result.IntegrityError? ==>
                session == table == old(table) && pendingFor == None && versions == old(versions)
      ensures !result.IntegrityError? ==>
                && result == Changed(Updated(old(session)[i], UpdateOf(request))) && session == old(session)[i := result.user]
                && result.user == Edited(old(session)[i], request)
                && Saved(old(table), old(Version(session[i].tenantId)), old(session)[i].tenantId, commit)
    {
      hide Answer;
      if HasNull(request) || (request.email.Set? && EmailTaken(session, i, request.email.value)) {
        session, pendingFor := table, None;  // rolled back
        return IntegrityError;
      }
      var row := Updated(session[i], UpdateOf(request));
      RowReplaced(fold, session, i, row);
      Write(session[i].tenantId, session[i := row], commit);
      result := Changed(row);
    }

    method DeactivateUser(userId: int, tenantId: int, commit: bool) returns (user: Option<User>)
      requires Ready(tenantId)
      modifies this`table, this`session, this`versions, this`pendingFor
      ensures Valid()
      ensures user.None? ==> session == old(session) && table == old(table) && versions == old(versions)
                             && forall u :: u in session ==> u.id != userId || u.tenantId != tenantId
      ensures user.Some? ==> Saved(old(table), old(Version(tenantId)), tenantId, commit)
                             && exists i :: 0 <= i < |old(session)| && old(session)[i].id == userId && old(session)[i].tenantId == tenantId
                                            && user.value == Deactivated(old(session)[i]) && session == old(session)[i := user.value]
                                            && user.value == WithActivity(old(session)[i], false, old(session)[i].tokenVersion + 1)
    {
      hide Answer;
      var found := FindUser(userId, tenantId);
      if found.None? {
        return None;
      }
      var row := Deactivated(session[found.value]);
      RowReplaced(fold, session, found.value, row);
      Write(tenantId, session[found.value := row], commit);
      user := Some(row);
    }

    method ActivateUser(userId: int, tenantId: int, commit: bool) returns (user: Option<User>)
      requires Ready(tenantId)
      modifies this`table, this`session, this`versions, this`pendingFor
      ensures Valid()
      ensures user.None? ==> session == old(session) && table == old(table) && versions == old(versions)
                             && forall u :: u in session ==> u.id != userId || u.tenantId != tenantId
      ensures user.Some? ==> Saved(old(table), old(Version(tenantId)), tenantId, commit)
                             && exists i :: 0 <= i < |old(session)| && old(session)[i].id == userId && old(session)[i].tenantId == tenantId
                                            && user.value == Activated(old(session)[i]) && session == old(session)[i := user.value]
                                            && user.value == WithActivity(old(session)[i], true, old(session)[i].tokenVersion)
    {
      hide Answer;
      var found := FindUser(userId, tenantId);
      if found.None? {
        return None;
      }
      var row := Activated(session[found.value]);
      RowReplaced(fold, session, found.value, row);
      Write(tenantId, session[found.value := row], commit);
      user := Some(row);
    }

    method IncrementUserTokenVersion(i: nat) returns (user: User)
      requires i < |session| && Ready(session[i].tenantId)
      modifies this`table, this`session, this`versions, this`pendingFor
      ensures Valid() && user == VersionBumped(old(session)[i]) && session == old(session)[i := user]
      ensures user == WithActivity(old(session)[i], old(session)[i].isActive, old(session)[i].tokenVersion + 1)
      ensures Saved(old(table), old(Version(session[i].tenantId)), user.tenantId, true)
    {
      hide Answer;
      user := VersionBumped(session[i]);
      RowReplaced(fold, session, i, user);
      Write(user.tenantId, session[i := user], true);
    }

    method DeleteUser(i: nat, commit: bool)
      requires i < |session| && Ready(session[i].tenantId)
      modifies this`table, this`session, this`versions, this`pendingFor
      ensures Valid() && session == old(session)[..i] + old(session)[i + 1..]
      ensures Saved(old(table), old(Version(session[i].tenantId)), old(session)[i].tenantId, commit)
    {
      hide Answer;
      RowDeleted(fold, session, i);
      Write(session[i].tenantId, session[..i] + session[i + 1..], commit);
    }
  }

  /** A row changed in place, its e-mail not another row's, keeps the constraints and every other tenant's pages. */
  lemma RowReplaced(fold: char -> char, rows: seq<User>, i: nat, row: User)
    requires i < |rows| && UniqueIds(rows) && UniqueEmails(rows)
    requires row.id == rows[i].id && row.tenantId == rows[i].tenantId
    requires row.email == rows[i].email || !EmailTaken(rows, i, row.email)
    ensures UniqueIds(rows[i := row]) && UniqueEmails(rows[i := row])
    ensures SameElsewhere(fold, rows, rows[i := row], row.tenantId)
  {
    hide Answer;
    forall slot: Slot | slot.query.tenantId != row.tenantId
      ensures Answer(fold, rows[i := row], slot) == Answer(fold, rows, slot)
    {
      OtherTenantsUnaffected(fold, rows, i, row, slot);
    }
  }

  lemma RowDeleted(fold: char -> char, rows: seq<User>, i: nat)
    requires i < |rows| && UniqueIds(rows) && UniqueEmails(rows)
    ensures UniqueIds(rows[..i] + rows[i + 1..]) && UniqueEmails(rows[..i] + rows[i + 1..])
    ensures SameElsewhere(fold, rows, rows[..i] + rows[i + 1..], rows[i].tenantId)
  {
    hide Answer;
    forall slot: Slot | slot.query.tenantId != rows[i].tenantId
      ensures Answer(fold, rows[..i] + rows[i + 1..], slot) == Answer(fold, rows, slot)
    {
      DeletionElsewhere(fold, rows, i, slot);
    }
  }

  // ---- a listing depends on the rows of its own tenant only ----

  lemma {:induction false} FilterConcat(keep: User -> bool, a: seq<User>, b: seq<User>)
    ensures Filter(keep, a + b) == Filter(keep, a) + Filter(keep, b)
  {
    if a == [] {
      assert a + b == b;
    } else {
      assert (a + b)[1..] == a[1..] + b;
      FilterConcat(keep, a[1..], b);
      var first := if keep(a[0]) then [a[0]] else [];
      assert first + (Filter(keep, a[1..]) + Filter(keep, b)) == (first + Filter(keep, a[1..])) + Filter(keep, b);
    }
  }

  lemma FilterOne(keep: User -> bool, u: User)
    ensures Filter(keep, [u]) == if keep(u) then [u] else []
  {
    assert [u][1..] == [];
  }

  lemma FilterThree(keep: User -> bool, a: seq<User>, u: User, b: seq<User>)
    ensures Filter(keep, a + [u] + b) == Filter(keep, a) + Filter(keep, [u]) + Filter(keep, b)
  {
    hide Filter;
    FilterConcat(keep, a + [u], b);
    FilterConcat(keep, a, [u]);
  }

  lemma SplitAround<T>(rows: seq<T>, i: nat)
    requires i < |rows|
    ensures rows == rows[..i] + [rows[i]] + rows[i + 1..]
  {
  }

  lemma FilterAround(keep: User -> bool, rows: seq<User>, i: nat)
    requires i < |rows|
    ensures Filter(keep, rows) == Filter(keep, rows[..i]) + Filter(keep, [rows[i]]) + Filter(keep, rows[i + 1..])
  {
    hide Filter;
    SplitAround(rows, i);
    FilterThree(keep, rows[..i], rows[i], rows[i + 1..]);
  }

  lemma OtherTenantsUnaffected(fold: char -> char, table: seq<User>, i: nat, row: User, slot: Slot)
    requires i < |table| && row.tenantId == table[i].tenantId
    ensures slot.query.tenantId != row.tenantId ==> Answer(fold, table[i := row], slot) == Answer(fold, table, slot)
  {
    hide OrderBy, ValidateCursorFilters, BuildNextCursor, Filter;
    var keep := SelectedBy(fold, slot.query);
    var changed := table[i := row];
    FilterAround(keep, table, i);
    FilterAround(keep, changed, i);
    FilterOne(keep, table[i]);
    FilterOne(keep, row);
    assert changed[..i] == table[..i] && changed[i + 1..] == table[i + 1..];
  }

  lemma DeletionElsewhere(fold: char -> char, table: seq<User>, i: nat, slot: Slot)
    requires i < |table|
    ensures slot.query.tenantId != table[i].tenantId ==> Answer(fold, table[..i] + table[i + 1..], slot) == Answer(fold, table, slot)
  {
    hide OrderBy, ValidateCursorFilters, BuildNextCursor, Filter;
    var keep := SelectedBy(fold, slot.query);
    FilterAround(keep, table, i);
    FilterOne(keep, table[i]);
    FilterConcat(keep, table[..i], table[i + 1..]);
    if slot.query.tenantId != table[i].tenantId {
      assert !keep(table[i]);
      var front := Filter(keep, table[..i]);
      assert front + [] == front;
      assert Filter(keep, table[..i] + table[i + 1..]) == Filter(keep, table);
    }
  }
}

/**
 The listing cache of one tenant under interleaving. A reader is authenticated, reads the version, looks in the cache,
 queries and stores; a writer commits, then increments the version. Entries may be evicted at any time. The caller's own
 row was loaded into the session when the caller was authenticated, and the query does not refresh it.
 */
module CacheCoherence {
  import opened Wrappers
  import opened LikeSearch
  import opened UserListing
  import opened UserDirectory

  /** The row of a caller, loaded from the database state of commit `at` when the caller was authenticated. */
  datatype Session = Session(caller: User, at: nat)

  /** A page, with its origin as history: the reader that queried it, and the commit that its query read. */
  datatype Shown = Shown(page: Page, asker: nat, asOf: nat)

  datatype Reader =
    | Looking(slot: Slot)                // version read, slot built
    | Querying(slot: Slot)               // cache miss
    | Storing(slot: Slot, shown: Shown)  // query done

  /** A page returned to a caller. */
  datatype Reply = Reply(reader: nat, shown: Shown)

  /**
   `history` lists the committed database states, `floors[v]` is the latest commit whose writer had incremented
   the version when it was v, `started[r]` is the request of reader r with the version it read, `sessions[r]` its session.
   */
  datatype State = State(
    history: seq<seq<User>>,
    version: nat,
    cache: map<Slot, Shown>,
    readers: map<nat, Reader>,
    writers: map<nat, nat>,
    floors: seq<nat>,
    started: seq<Slot>,
    sessions: seq<Session>,
    replies: seq<Reply>)

  datatype Step =
    | ReadVersion(session: Session, query: Query, limit: int, cursor: Option<Cursor>, skip: Option<int>)
    | LookUp(reader: nat)
    | RunQuery(reader: nat)
    | Store(reader: nat)
    | Commit(writer: nat, table: seq<User>)
    | Increment(writer: nat)
    | Evict(slot: Slot)

  /** The page as the session shows it: the caller's row keeps its loaded attributes, in the cursor too. */
  function Overlaid(slot: Slot, page: Page, caller: User): Page
    requires slot.limit >= 1
  {
    var items := Replaced(page.items, caller);
    Page(items, if page.nextCursor.None? then None else BuildNextCursor(slot.query, items, slot.limit))
  }

  function Replaced(items: seq<User>, caller: User): (r: seq<User>)
    ensures |r| == |items|
    ensures forall k :: 0 <= k < |items| ==> r[k] == if items[k].id == caller.id then caller else items[k]
  {
    seq(|items|, k requires 0 <= k < |items| => if items[k].id == caller.id then caller else items[k])
  }

  /** What a query of this state of the table shows to a caller; `None` when the cursor is rejected. */
  function Seen(fold: char -> char, table: seq<User>, slot: Slot, caller: User): Option<Page> {
    var answer := Answer(fold, table, slot);
    if answer.None? then None else Some(Overlaid(slot, answer.value, caller))
  }

  /** The caller's row is not on the page, or is there as it was loaded. */
  predicate CallerAsLoaded(page: Page, caller: User) {
    forall k :: 0 <= k < |page.items| && page.items[k].id == caller.id ==> page.items[k] == caller
  }

  /** Other rows are as committed, and the page is altogether exactly when the caller's row is not on it or is as loaded. */
  lemma OtherRowsAsCommitted(fold: char -> char, table: seq<User>, slot: Slot, caller: User)
    requires Answer(fold, table, slot).Some?
    ensures var page, seen := Answer(fold, table, slot).value, Seen(fold, table, slot, caller).value;
            && |seen.items| == |page.items|
            && (forall k :: 0 <= k < |page.items| ==> seen.items[k] == if page.items[k].id == caller.id then caller else page.items[k])
            && (seen == page <==> CallerAsLoaded(page, caller))
  {
    hide Selected, OrderBy, Filter, ValidateCursorFilters;
    var page := Answer(fold, table, slot).value;
    if CallerAsLoaded(page, caller) {
      assert Replaced(page.items, caller) == page.items;
    }
  }

  ghost predicate Enabled(st: State, step: Step) {
    match step
    // an inactive user is refused; the listing is of the caller's tenant
    case ReadVersion(session, query, limit, _, _) =>
      && limit >= 1 && session.at < |st.history| && session.caller in st.history[session.at]
      && session.caller.isActive && session.caller.tenantId == query.tenantId
    case LookUp(r) => r in st.readers && st.readers[r].Looking?
    case RunQuery(r) => r in st.readers && st.readers[r].Querying? && r < |st.sessions|
    case Store(r) => r in st.readers && st.readers[r].Storing?
    case Commit(w, _) => w !in st.writers
    case Increment(w) => w in st.writers
    case Evict(slot) => slot in st.cache
  }

  ghost function Do(fold: char -> char, st: State, step: Step): State
    requires Enabled(st, step) && st.history != [] && st.floors != []
  {
    match step
    case ReadVersion(session, query, limit, cursor, skip) =>
      var slot := Slot(st.version, query, limit, cursor, EffectiveSkip(skip));
      st.(readers := st.readers[|st.started| := Looking(slot)], started := st.started + [slot],
          sessions := st.sessions + [session])
    case LookUp(r) =>
      var slot := st.readers[r].slot;
      if slot in st.cache then
        st.(readers := st.readers - {r}, replies := st.replies + [Reply(r, st.cache[slot])])
      else
        st.(readers := st.readers[r := Querying(slot)])
    case RunQuery(r) =>
      var slot := st.readers[r].slot;
      var answer := Seen(fold, Current(st), slot, st.sessions[r].caller);
      // a rejected cursor is an error: nothing is cached
      if answer.None? then st.(readers := st.readers - {r})
      else st.(readers := st.readers[r := Storing(slot, Shown(answer.value, r, |st.history| - 1))])
    case Store(r) =>
      var slot, shown := st.readers[r].slot, st.readers[r].shown;
      st.(cache := st.cache[slot := shown], readers := st.readers - {r}, replies := st.replies + [Reply(r, shown)])
    case Commit(w, table) => st.(history := st.history + [table], writers := st.writers[w := |st.history|])
    case Increment(w) =>
      var last := st.floors[|st.floors| - 1];
      st.(version := st.version + 1,
          floors := st.floors + [if st.writers[w] > last then st.writers[w] else last],
          writers := st.writers - {w})
    case Evict(slot) => st.(cache := st.cache - {slot})
  }

  ghost function Current(st: State): seq<User>
    requires st.history != []
  {
    st.history[|st.history| - 1]
  }

  ghost predicate Run(fold: char -> char, first: State, steps: seq<Step>, last: State)
    decreases |steps|
  {
    if steps == [] then first == last
    else first.history != [] && first.floors != [] && Enabled(first, steps[0])
         && Run(fold, Do(fold, first, steps[0]), steps[1..], last)
  }

  ghost predicate Init(st: State) {
    && |st.history| == 1 && st.version == 0 && st.cache == map[] && st.readers == map[] && st.writers == map[]
    && st.floors == [0] && st.started == [] && st.sessions == [] && st.replies == []
  }

  /** The caller's row is one that the database had at the commit the session was authenticated at. */
  ghost predicate Loaded(history: seq<seq<User>>, session: Session) {
    session.at < |history| && session.caller in history[session.at]
  }

  /**
   The page is what the query of a committed state no older than commit `floor` showed to the reader that asked, who had
   made the same request and had been authenticated no later than that commit.
   */
  ghost predicate AsRecentAs(fold: char -> char, history: seq<seq<User>>, started: seq<Slot>, sessions: seq<Session>,
                             slot: Slot, shown: Shown, floor: nat) {
    && floor <= shown.asOf < |history|
    && shown.asker < |started| && shown.asker < |sessions| && started[shown.asker] == slot
    && Loaded(history, sessions[shown.asker]) && sessions[shown.asker].at <= shown.asOf
    && Seen(fold, history[shown.asOf], slot, sessions[shown.asker].caller) == Some(shown.page)
  }

  // ---- invariant ----

  ghost predicate Ordered(st: State) {
    && st.history != [] && |st.floors| == st.version + 1
    && (forall v :: 0 <= v < |st.floors| ==> st.floors[v] < |st.history|)
    && (forall v, w :: 0 <= v <= w < |st.floors| ==> st.floors[v] <= st.floors[w])
    && (forall w :: w in st.writers ==> st.writers[w] < |st.history|)
    && |st.sessions| == |st.started| && forall r :: 0 <= r < |st.sessions| ==> Loaded(st.history, st.sessions[r])
  }

  ghost predicate ReadersSound(fold: char -> char, st: State) {
    && |st.floors| == st.version + 1
    && (forall r :: 0 <= r < |st.started| ==> st.started[r].version <= st.version)
    && (forall r, s :: 0 <= r <= s < |st.started| ==> st.started[r].version <= st.started[s].version)
    && (forall r :: r in st.readers ==> r < |st.started| && st.readers[r].slot == st.started[r])
    && (forall r :: r in st.readers && st.readers[r].Storing? ==>
          AsRecentAs(fold, st.history, st.started, st.sessions, st.started[r], st.readers[r].shown, st.floors[st.started[r].version]))
  }

  ghost predicate PagesSound(fold: char -> char, st: State) {
    && |st.floors| == st.version + 1
    && (forall slot :: slot in st.cache ==>
          slot.version <= st.version
          && AsRecentAs(fold, st.history, st.started, st.sessions, slot, st.cache[slot], st.floors[slot.version]))
    && (forall k :: 0 <= k < |st.replies| ==> ReplySound(fold, st, st.replies[k]))
  }

  ghost predicate ReplySound(fold: char -> char, st: State, reply: Reply) {
    && reply.reader < |st.started| && st.started[reply.reader].version < |st.floors|
    && AsRecentAs(fold, st.history, st.started, st.sessions, st.started[reply.reader], reply.shown,
                  st.floors[st.started[reply.reader].version])
  }

  ghost predicate Inv(fold: char -> char, st: State) {
    Ordered(st) && ReadersSound(fold, st) && PagesSound(fold, st)
  }

  lemma HistoryGrows(fold: char -> char, st: State, table: seq<User>, slot: Slot, shown: Shown, floor: nat)
    requires AsRecentAs(fold, st.history, st.started, st.sessions, slot, shown, floor)
    ensures AsRecentAs(fold, st.history + [table], st.started, st.sessions, slot, shown, floor)
  {
    hide Seen;
  }

  lemma CommitStep(fold: char -> char, st: State, w: nat, table: seq<User>)
    requires Inv(fold, st) && Enabled(st, Commit(w, table))
    ensures Inv(fold, Do(fold, st, Commit(w, table)))
  {
    hide AsRecentAs, Seen;
    forall slot, shown, floor | AsRecentAs(fold, st.history, st.started, st.sessions, slot, shown, floor)
      ensures AsRecentAs(fold, st.history + [table], st.started, st.sessions, slot, shown, floor)
    {
      HistoryGrows(fold, st, table, slot, shown, floor);
    }
  }

  lemma ReadersGrow(fold: char -> char, st: State, request: Slot, session: Session, slot: Slot, shown: Shown, floor: nat)
    requires AsRecentAs(fold, st.history, st.started, st.sessions, slot, shown, floor)
    ensures AsRecentAs(fold, st.history, st.started + [request], st.sessions + [session], slot, shown, floor)
  {
    hide Seen;
  }

  lemma ReadVersionStep(fold: char -> char, st: State, session: Session, query: Query, limit: int, cursor: Option<Cursor>, skip: Option<int>)
    requires Inv(fold, st) && Enabled(st, ReadVersion(session, query, limit, cursor, skip))
    ensures Inv(fold, Do(fold, st, ReadVersion(session, query, limit, cursor, skip)))
  {
    hide AsRecentAs, Seen;
    var request := Slot(st.version, query, limit, cursor, EffectiveSkip(skip));
    forall slot, shown, floor | AsRecentAs(fold, st.history, st.started, st.sessions, slot, shown, floor)
      ensures AsRecentAs(fold, st.history, st.started + [request], st.sessions + [session], slot, shown, floor)
    {
      ReadersGrow(fold, st, request, session, slot, shown, floor);
    }
  }

  lemma IncrementStep(fold: char -> char, st: State, w: nat)
    requires Inv(fold, st) && w in st.writers
    ensures Inv(fold, Do(fold, st, Increment(w)))
  {
    hide AsRecentAs, Seen;
  }

  /** A reader that holds a page holds one recent enough for the version it read. */
  ghost predicate ReaderSound(fold: char -> char, st: State, r: nat, reader: Reader) {
    && r < |st.started| && reader.slot == st.started[r]
    && (reader.Storing? ==> ReplySound(fold, st, Reply(r, reader.shown)))
  }

  lemma ReadersChanged(fold: char -> char, st: State, readers: map<nat, Reader>)
    requires Inv(fold, st)
    requires forall r :: r in readers ==> (r in st.readers && readers[r] == st.readers[r]) || ReaderSound(fold, st, r, readers[r])
    ensures Inv(fold, st.(readers := readers))
  {
    hide AsRecentAs, Seen;
    var st' := st.(readers := readers);
    assert PagesSound(fold, st');
    assert Ordered(st');
  }

  lemma ReplyAdded(fold: char -> char, st: State, reply: Reply)
    requires Inv(fold, st) && ReplySound(fold, st, reply)
    ensures Inv(fold, st.(replies := st.replies + [reply]))
  {
    hide AsRecentAs, Seen;
    var st' := st.(replies := st.replies + [reply]);
    assert Ordered(st') && ReadersSound(fold, st');
  }

  lemma CacheChanged(fold: char -> char, st: State, slot: Slot, shown: Shown)
    requires Inv(fold, st) && slot.version < |st.floors|
    requires AsRecentAs(fold, st.history, st.started, st.sessions, slot, shown, st.floors[slot.version])
    ensures Inv(fold, st.(cache := st.cache[slot := shown]))
  {
    hide AsRecentAs, Seen;
    var st' := st.(cache := st.cache[slot := shown]);
    assert Ordered(st') && ReadersSound(fold, st');
  }

  lemma QuerySound(fold: char -> char, st: State, r: nat, page: Page)
    requires Inv(fold, st) && Enabled(st, RunQuery(r))
    requires Seen(fold, Current(st), st.readers[r].slot, st.sessions[r].caller) == Some(page)
    ensures ReaderSound(fold, st, r, Storing(st.readers[r].slot, Shown(page, r, |st.history| - 1)))
  {
    hide Seen, PagesSound;
  }

  lemma QueryStep(fold: char -> char, st: State, r: nat)
    requires Inv(fold, st) && Enabled(st, RunQuery(r))
    ensures Inv(fold, Do(fold, st, RunQuery(r)))
  {
    assert st.history != [] && st.floors != [];
    hide Seen, Inv, ReaderSound;
    var answer := Seen(fold, Current(st), st.readers[r].slot, st.sessions[r].caller);
    if answer.Some? {
      QuerySound(fold, st, r, answer.value);
    }
    ReadersChanged(fold, st, Do(fold, st, RunQuery(r)).readers);
  }

  lemma PendingSound(fold: char -> char, st: State, r: nat)
    requires Inv(fold, st) && Enabled(st, Store(r))
    ensures st.history != [] && r < |st.started| && st.readers[r].slot == st.started[r]
    ensures ReplySound(fold, st, Reply(r, st.readers[r].shown))
  {
    hide AsRecentAs, PagesSound;
  }

  lemma StoreStep(fold: char -> char, st: State, r: nat)
    requires Inv(fold, st) && Enabled(st, Store(r))
    ensures Inv(fold, Do(fold, st, Store(r)))
  {
    hide Inv, AsRecentAs, Seen;
    var slot, shown := st.readers[r].slot, st.readers[r].shown;
    PendingSound(fold, st, r);
    CacheChanged(fold, st, slot, shown);
    var stored := st.(cache := st.cache[slot := shown]);
    ReplyAdded(fold, stored, Reply(r, shown));
    ReadersChanged(fold, stored.(replies := stored.replies + [Reply(r, shown)]), st.readers - {r});
  }

  lemma LookUpStep(fold: char -> char, st: State, r: nat)
    requires Inv(fold, st) && Enabled(st, LookUp(r))
    ensures Inv(fold, Do(fold, st, LookUp(r)))
  {
    hide AsRecentAs, Seen;
    var slot := st.readers[r].slot;
    if slot in st.cache {
      ReplyAdded(fold, st, Reply(r, st.cache[slot]));
      ReadersChanged(fold, st.(replies := st.replies + [Reply(r, st.cache[slot])]), st.readers - {r});
    } else {
      ReadersChanged(fold, st, st.readers[r := Querying(slot)]);
    }
  }

  lemma InvStep(fold: char -> char, st: State, step: Step)
    requires Inv(fold, st) && Enabled(st, step)
    ensures Inv(fold, Do(fold, st, step))
  {
    hide AsRecentAs, Seen;
    match step {
      case ReadVersion(session, query, limit, cursor, skip) => ReadVersionStep(fold, st, session, query, limit, cursor, skip);
      case LookUp(r) => LookUpStep(fold, st, r);
      case RunQuery(r) => QueryStep(fold, st, r);
      case Store(r) => StoreStep(fold, st, r);
      case Commit(w, table) => CommitStep(fold, st, w, table);
      case Increment(w) => IncrementStep(fold, st, w);
      case Evict(_) =>
    }
  }

  /** Later states keep what earlier ones recorded, and readers that start later read no smaller version. */
  ghost predicate Extends(a: State, b: State) {
    && a.version <= b.version
    && |a.floors| <= |b.floors| && b.floors[..|a.floors|] == a.floors
    && |a.started| <= |b.started|
    && (forall r :: |a.started| <= r < |b.started| ==> a.version <= b.started[r].version)
  }

  lemma ExtendsStep(fold: char -> char, a: State, st: State, step: Step)
    requires Inv(fold, st) && Enabled(st, step) && Extends(a, st)
    ensures Extends(a, Do(fold, st, step))
  {
    hide Seen, AsRecentAs;
    if step.Increment? {
      assert Do(fold, st, step).floors[..|a.floors|] == st.floors[..|a.floors|];
    }
  }

  lemma {:induction false} InvRun(fold: char -> char, a: State, first: State, steps: seq<Step>, last: State)
    requires Inv(fold, first) && Extends(a, first) && Run(fold, first, steps, last)
    ensures Inv(fold, last) && Extends(a, last)
    decreases |steps|
  {
    hide Inv, Extends, Enabled, Do;
    if steps != [] {
      InvStep(fold, first, steps[0]);
      ExtendsStep(fold, a, first, steps[0]);
      InvRun(fold, a, Do(fold, first, steps[0]), steps[1..], last);
    }
  }

  /**
   Every page returned to a reader that reads the version after a writer's increment is what a query of a database state
   no older than that writer's commit showed to the reader that asked.
   */
  lemma NeverOlderThanInvalidation(fold: char -> char, init: State, before: seq<Step>, st: State, writer: nat,
                                   after: seq<Step>, last: State, k: nat)
    requires Init(init) && Run(fold, init, before, st) && st.history != [] && st.floors != []
    requires writer in st.writers && Run(fold, Do(fold, st, Increment(writer)), after, last)
    requires k < |last.replies| && last.replies[k].reader >= |st.started|
    ensures last.replies[k].reader < |last.started|
    ensures AsRecentAs(fold, last.history, last.started, last.sessions, last.started[last.replies[k].reader], last.replies[k].shown,
                       st.writers[writer])
  {
    hide Seen, Run;
    assert Inv(fold, init) && Extends(init, init);
    InvRun(fold, init, init, before, st);
    var bumped := Do(fold, st, Increment(writer));
    InvStep(fold, st, Increment(writer));
    InvRun(fold, bumped, bumped, after, last);
    assert ReplySound(fold, last, last.replies[k]);
    var slot := last.started[last.replies[k].reader];
    assert bumped.version <= slot.version;
    assert last.floors[bumped.version] == bumped.floors[bumped.version] >= st.writers[writer] by {
      assert last.floors[..|bumped.floors|][bumped.version] == bumped.floors[bumped.version];
    }
    assert last.floors[bumped.version] <= last.floors[slot.version];
  }

  /**
   In every run a returned page has all rows but one as its query's state had them, that of the caller who asked as it was
   at authentication; and it is that state's page if and only if the caller's row was not on it or had not changed.
   */
  lemma AsCommittedIff(fold: char -> char, init: State, steps: seq<Step>, last: State, k: nat)
    requires Init(init) && Run(fold, init, steps, last) && k < |last.replies|
    ensures var shown := last.replies[k].shown;
            && last.replies[k].reader < |last.started| && shown.asker < |last.sessions| && shown.asOf < |last.history|
            && var answer := Answer(fold, last.history[shown.asOf], last.started[last.replies[k].reader]);
            && var caller := last.sessions[shown.asker].caller;
            && answer.Some? && |shown.page.items| == |answer.value.items|
            && (forall j :: 0 <= j < |answer.value.items| ==>
                  shown.page.items[j] == if answer.value.items[j].id == caller.id then caller else answer.value.items[j])
            && (shown.page == answer.value <==> CallerAsLoaded(answer.value, caller))
  {
    hide Run, Answer;
    assert Inv(fold, init) && Extends(init, init);
    InvRun(fold, init, init, steps, last);
    var reply := last.replies[k];
    assert ReplySound(fold, last, reply);
    OtherRowsAsCommitted(fold, last.history[reply.shown.asOf], last.started[reply.reader], last.sessions[reply.shown.asker].caller);
  }

  // ---- one reader, one writer ----

  /** The state in which reader r has got this far. */
  ghost function Reading(st: State, session: Session, slot: Slot, reader: Reader): State {
    st.(readers := st.readers[|st.started| := reader], started := st.started + [slot], sessions := st.sessions + [session])
  }

  /** The state after the reader has got its reply, or an error. */
  ghost function Served(st: State, session: Session, slot: Slot, reply: Option<Shown>): State {
    st.(started := st.started + [slot], sessions := st.sessions + [session],
        replies := if reply.Some? then st.replies + [Reply(|st.started|, reply.value)] else st.replies)
  }

  /**
   A reader with no other step in between is served from the cache if its slot is there; otherwise it gets what the
   committed state shows to it, which is then in the cache, or an error for a refused cursor.
   */
  lemma ReaderAlone(fold: char -> char, st: State, session: Session, query: Query, limit: int, cursor: Option<Cursor>, skip: Option<int>)
    returns (steps: seq<Step>, last: State)
    requires st.history != [] && st.floors != [] && |st.sessions| == |st.started| && |st.started| !in st.readers
    requires Enabled(st, ReadVersion(session, query, limit, cursor, skip))
    ensures Run(fold, st, steps, last)
    ensures var slot := Slot(st.version, query, limit, cursor, EffectiveSkip(skip));
            var seen := Seen(fold, st.history[|st.history| - 1], slot, session.caller);
            if slot in st.cache then last == Served(st, session, slot, Some(st.cache[slot]))
            else if seen.None? then last == Served(st, session, slot, None)
            else
              var shown := Shown(seen.value, |st.started|, |st.history| - 1);
              last == Served(st, session, slot, Some(shown)).(cache := st.cache[slot := shown])
  {
    hide Run, Seen;
    var slot, r := Slot(st.version, query, limit, cursor, EffectiveSkip(skip)), |st.started|;
    var asks := ReadVersion(session, query, limit, cursor, skip);
    RunNone(fold, st);
    RunMore(fold, st, [], st, asks);
    var s1 := Reading(st, session, slot, Looking(slot));
    assert s1 == Do(fold, st, asks);
    RunMore(fold, st, [] + [asks], s1, LookUp(r));
    steps, last := [] + [asks] + [LookUp(r)], Do(fold, s1, LookUp(r));
    if slot in st.cache {
      assert s1.readers - {r} == st.readers;
    } else {
      var s2 := Reading(st, session, slot, Querying(slot));
      assert last == s2;
      RunMore(fold, st, steps, s2, RunQuery(r));
      steps, last := steps + [RunQuery(r)], Do(fold, s2, RunQuery(r));
      var seen := Seen(fold, Current(st), slot, session.caller);
      if seen.None? {
        assert s2.readers - {r} == st.readers;
      } else {
        var s3 := Reading(st, session, slot, Storing(slot, Shown(seen.value, r, |st.history| - 1)));
        assert last == s3;
        RunMore(fold, st, steps, s3, Store(r));
        assert s3.readers - {r} == st.readers;
        steps, last := steps + [Store(r)], Do(fold, s3, Store(r));
      }
    }
  }

  /** A writer with no other step in between leaves its rows committed and the version raised; cached pages stay under the old one. */
  lemma WriterAlone(fold: char -> char, st: State, w: nat, table: seq<User>) returns (last: State)
    requires st.history != [] && st.floors != [] && w !in st.writers
    requires forall v :: 0 <= v < |st.floors| ==> st.floors[v] < |st.history|
    ensures Run(fold, st, [Commit(w, table)] + [Increment(w)], last)
    ensures last == st.(history := st.history + [table], version := st.version + 1, floors := st.floors + [|st.history|])
  {
    hide Run;
    RunNone(fold, st);
    RunMore(fold, st, [], st, Commit(w, table));
    assert [] + [Commit(w, table)] == [Commit(w, table)];
    var committed := Do(fold, st, Commit(w, table));
    RunMore(fold, st, [Commit(w, table)], committed, Increment(w));
    last := Do(fold, committed, Increment(w));
    assert committed.writers - {w} == st.writers;
  }

  // ---- the caller's row can be older ----

  lemma {:induction false} RunMore(fold: char -> char, first: State, steps: seq<Step>, st: State, step: Step)
    requires Run(fold, first, steps, st) && st.history != [] && st.floors != [] && Enabled(st, step)
    ensures Run(fold, first, steps + [step], Do(fold, st, step))
    decreases |steps|
  {
    hide Enabled, Do;
    if steps == [] {
      assert [] + [step] == [step] && [step][1..] == [];
    } else {
      RunMore(fold, Do(fold, first, steps[0]), steps[1..], st, step);
      assert (steps + [step])[1..] == steps[1..] + [step];
    }
  }

  function AllOf(tenantId: int): Query {
    Query(tenantId, ById, false, None, None, None, Prefix)
  }

  lemma OneRowAnswer(fold: char -> char, u: User, version: nat)
    requires u.isActive
    ensures Answer(fold, [u], Slot(version, AllOf(u.tenantId), 10, None, None)) == Some(Page([u], None))
  {
    assert [u][1..] == [];
    assert Filter(SelectedBy(fold, AllOf(u.tenantId)), [u]) == [u];
    assert OrderBy(AllOf(u.tenantId), [u]) == [u];
  }

  /** The caller asks for the first page of its tenant. */
  function Asks(session: Session): Step {
    ReadVersion(session, AllOf(session.caller.tenantId), 10, None, None)
  }

  /**
   A reader authenticated after a writer's commit and its increment can still get the row of another caller as it was
   before the commit: that caller was authenticated before it, and queried and stored the page after the increment.
   */
  lemma StaleRowOfCaller(fold: char -> char, earlier: User, current: User)
    returns (init: State, before: seq<Step>, st: State, after: seq<Step>, last: State)
    requires earlier.id == current.id && earlier.tenantId == current.tenantId && earlier.isActive && current.isActive
    ensures Init(init) && Run(fold, init, before, st) && st.history == [[earlier], [current]] && st.floors != []
    ensures 0 in st.writers && st.writers[0] == 1 && st.started == [] && Run(fold, Do(fold, st, Increment(0)), after, last)
    ensures |last.replies| == 2 && last.replies[1].reader == 1 && |last.sessions| == 2 && last.sessions[1] == Session(current, 1)
    ensures last.history == st.history && last.replies[1].shown.page == Page([earlier], None)
  {
    hide Run, Answer;
    init := State([[earlier]], 0, map[], map[], map[], [0], [], [], []);
    assert Run(fold, init, [], init) by {
      RunNone(fold, init);
    }
    before := [] + [Commit(0, [current])];
    RunMore(fold, init, [], init, Commit(0, [current]));
    st := State([[earlier], [current]], 0, map[], map[], map[0 := 1], [0], [], [], []);
    assert st == Do(fold, init, Commit(0, [current]));
    var bumped := State([[earlier], [current]], 1, map[], map[], map[], [0, 1], [], [], []);
    assert bumped == Do(fold, st, Increment(0));
    after, last := AskedTwice(fold, earlier, current, bumped);
  }

  lemma RunNone(fold: char -> char, st: State)
    ensures Run(fold, st, [], st)
  {
  }

  lemma AskedTwice(fold: char -> char, earlier: User, current: User, st: State) returns (steps: seq<Step>, last: State)
    requires earlier.id == current.id && earlier.tenantId == current.tenantId && earlier.isActive && current.isActive
    requires st == State([[earlier], [current]], 1, map[], map[], map[], [0, 1], [], [], [])
    ensures Run(fold, st, steps, last) && last.history == st.history
    ensures |last.replies| == 2 && last.replies[1].reader == 1 && |last.sessions| == 2 && last.sessions[1] == Session(current, 1)
    ensures last.replies[1].shown.page == Page([earlier], None)
  {
    hide Run, Answer;
    var slot, shown := Slot(1, AllOf(earlier.tenantId), 10, None, None), Shown(Page([earlier], None), 0, 1);
    var first, second := Session(earlier, 0), Session(current, 1);
    RunNone(fold, st);
    RunMore(fold, st, [], st, Asks(first));
    var s1 := st.(readers := map[0 := Looking(slot)], started := [slot], sessions := [first]);
    assert s1 == Do(fold, st, Asks(first));
    RunMore(fold, st, [] + [Asks(first)], s1, LookUp(0));
    var s2 := s1.(readers := map[0 := Querying(slot)]);
    assert s2 == Do(fold, s1, LookUp(0));
    RunMore(fold, st, [] + [Asks(first)] + [LookUp(0)], s2, RunQuery(0));
    OneRowAnswer(fold, current, 1);
    assert Replaced([current], earlier) == [earlier];
    var s3 := s2.(readers := map[0 := Storing(slot, shown)]);
    assert s3 == Do(fold, s2, RunQuery(0));
    RunMore(fold, st, [] + [Asks(first)] + [LookUp(0)] + [RunQuery(0)], s3, Store(0));
    var s4 := s3.(cache := map[slot := shown], readers := map[], replies := [Reply(0, shown)]);
    assert s4 == Do(fold, s3, Store(0));
    steps := [] + [Asks(first)] + [LookUp(0)] + [RunQuery(0)] + [Store(0)];
    RunMore(fold, st, steps, s4, Asks(second));
    var s5 := s4.(readers := map[1 := Looking(slot)], started := [slot, slot], sessions := [first, second]);
    assert s5 == Do(fold, s4, Asks(second));
    RunMore(fold, st, steps + [Asks(second)], s5, LookUp(1));
    steps, last := steps + [Asks(second)] + [LookUp(1)], Do(fold, s5, LookUp(1));
  }
}

/**
 Inbound webhook requests interleaved statement by statement. The Redis locks may change in any way at any moment;
 what the clients see rests on the two unique constraints alone.
 */
module WebhookRuns {
  import opened Clock
  import opened Wrappers
  import opened WebhookSecurity
  import opened Webhooks

  /** What a request does next. `row` is the event row a request that answers "accepted" has inserted. */
  datatype Point =
    | Reading | Locking | Rereading | Checking
    | Persisting(event: Event, verifiedAt: Time)
    | Storing(body: Body, row: Option<nat>)
    | Fetching | Releasing

  /** `begun` is when its first query opened the database transaction. */
  datatype Request = Request(scope: string, delivery: Delivery, begun: Time, at: Point)

  /** An event row ever inserted; rows are numbered in the order of insertion. */
  datatype Filing = Filing(event: Event, delivery: Delivery, begun: Time, verifiedAt: Time, receivedAt: Time, filedAt: Time)

  /** A response row ever inserted. */
  datatype Storage = Storage(scope: string, record: Record, row: Option<nat>)

  /** A response body given to a client. */
  datatype Answer = Answer(scope: string, record: Record, at: Time)

  /** `filed`, `live`, `deletedAt`, `stored` and `answers` are history; `live` numbers the rows still in the table. */
  datatype State = State(
    now: Time,
    tables: Tables,
    locks: set<string>,
    requests: map<nat, Request>,
    filed: seq<Filing>,
    live: map<Event, nat>,
    deletedAt: map<nat, Time>,
    stored: seq<Storage>,
    answers: seq<Answer>)

  /** A statement's `clock` was read at or before the moment the statement takes effect. */
  datatype Step =
    | Tick(to: Time)
    | Start(r: nat, scope: string, delivery: Delivery)
    | Read(r: nat, clock: Time)
    | Lock(r: nat)
    | Reread(r: nat, clock: Time)
    | Check(r: nat, limited: bool)
    | Persist(r: nat, received: Time)
    | Store(r: nat, clock: Time)
    | Fetch(r: nat, clock: Time)
    | Release(r: nat)
    | Die(r: nat)
    | LocksBecome(locks: set<string>)
    | CleanRecords(cutoff: Time)
    | CleanEvents(cutoff: Time)

  ghost predicate At(st: State, r: nat, at: Point) {
    r in st.requests && st.requests[r].at == at
  }

  ghost predicate Enabled(s: Settings, st: State, step: Step) {
    match step
    case Tick(to) => st.now <= to
    case Start(r, _, _) => r !in st.requests
    case Read(r, clock) => At(st, r, Reading) && clock <= st.now
    case Lock(r) => At(st, r, Locking)
    case Reread(r, clock) => At(st, r, Rereading) && clock <= st.now
    case Check(r, _) => At(st, r, Checking)
    case Persist(r, received) => r in st.requests && st.requests[r].at.Persisting? && st.requests[r].begun <= received <= st.now
    case Store(r, clock) => r in st.requests && st.requests[r].at.Storing? && clock <= st.now
    case Fetch(r, clock) => At(st, r, Fetching) && clock <= st.now
    case Release(r) => At(st, r, Releasing)
    case Die(r) => r in st.requests
    case LocksBecome(_) => true
    case CleanRecords(cutoff) => cutoff <= st.now
    case CleanEvents(cutoff) => cutoff <= st.now - s.Retention()
  }

  ghost function Goes(st: State, r: nat, at: Point): State
    requires r in st.requests
  {
    st.(requests := st.requests[r := st.requests[r].(at := at)])
  }

  ghost function Ends(st: State, r: nat): State {
    st.(requests := st.requests - {r})
  }

  ghost function Answered(st: State, scope: string, record: Record): State {
    st.(answers := st.answers + [Answer(scope, record, st.now)])
  }

  ghost function Do(s: Settings, st: State, step: Step): State
    requires Enabled(s, st, step)
  {
    match step
    case Tick(to) => st.(now := to)
    case Start(r, scope, delivery) => st.(requests := st.requests[r := Request(scope, delivery, st.now, Reading)])
    case Read(r, clock) => ReadBy(st, r, clock)
    case Lock(r) =>
      var scope := st.requests[r].scope;
      if scope in st.locks then Goes(st, r, Rereading) else Goes(st.(locks := st.locks + {scope}), r, Checking)
    case Reread(r, clock) =>
      var scope := st.requests[r].scope;
      var look := SecondLook(Cached(st.tables.records, scope, clock));
      if look.Replay? then Ends(Answered(st, scope, look.record), r) else Ends(st, r)
    case Check(r, limited) =>
      var delivery := st.requests[r].delivery;
      if Refusal(s, delivery, limited, st.now).Some? then Goes(st, r, Releasing)
      else Goes(st, r, Persisting(s.parse(delivery.body).value, st.now))
    case Persist(r, received) => PersistedBy(st, r, received)
    case Store(r, clock) => StoredBy(s, st, r, clock)
    case Fetch(r, clock) =>
      var scope := st.requests[r].scope;
      var found := Cached(st.tables.records, scope, clock);
      if found.Some? then Goes(Answered(st, scope, found.value), r, Releasing) else Goes(st, r, Releasing)
    case Release(r) => Ends(st.(locks := st.locks - {st.requests[r].scope}), r)
    case Die(r) => Ends(st, r)
    case LocksBecome(locks) => st.(locks := locks)
    case CleanRecords(cutoff) => st.(tables := st.tables.(records := CleanedRecords(st.tables.records, cutoff)))
    case CleanEvents(cutoff) => EventsCleaned(st, cutoff)
  }

  /** The first query opens the transaction, whose start time a later insert takes for `received_at`. */
  ghost function ReadBy(st: State, r: nat, clock: Time): State
    requires r in st.requests
  {
    var request := st.requests[r];
    var found := Cached(st.tables.records, request.scope, clock);
    if found.Some? then Ends(Answered(st, request.scope, found.value), r)
    else st.(requests := st.requests[r := request.(begun := st.now, at := Locking)])
  }

  ghost function PersistedBy(st: State, r: nat, received: Time): State
    requires r in st.requests && st.requests[r].at.Persisting?
  {
    var request := st.requests[r];
    var event := request.at.event;
    if event in st.tables.events then Goes(st, r, Storing(Body(Duplicate, event), None))
    else
      var filing := Filing(event, request.delivery, request.begun, request.at.verifiedAt, received, st.now);
      RowInserted(Goes(st, r, Storing(Body(Accepted, event), Some(|st.filed|))), filing)
  }

  ghost function RowInserted(st: State, filing: Filing): State {
    st.(tables := st.tables.(events := st.tables.events[filing.event := filing.receivedAt]),
        filed := st.filed + [filing],
        live := st.live[filing.event := |st.filed|])
  }

  ghost function StoredBy(s: Settings, st: State, r: nat, clock: Time): State
    requires r in st.requests && st.requests[r].at.Storing?
  {
    var scope, at := st.requests[r].scope, st.requests[r].at;
    if scope in st.tables.records then Goes(st, r, Fetching)
    else
      var record := Record(at.body, clock + s.ttlSeconds * SECOND);
      Goes(Answered(st, scope, record), r, Releasing)
      .(tables := st.tables.(records := st.tables.records[scope := record]),
        stored := st.stored + [Storage(scope, record, at.row)])
  }

  ghost function EventsCleaned(st: State, cutoff: Time): State {
    var kept := CleanedEvents(st.tables.events, cutoff);
    st.(tables := st.tables.(events := kept),
        live := map e | e in st.live && e in kept :: st.live[e],
        deletedAt := map i: nat | i < |st.filed| && (i in st.deletedAt || st.filed[i].event !in kept)
                       :: if i in st.deletedAt then st.deletedAt[i] else st.now)
  }

  ghost predicate Run(s: Settings, first: State, steps: seq<Step>, last: State)
    decreases |steps|
  {
    if steps == [] then first == last
    else Enabled(s, first, steps[0]) && Run(s, Do(s, first, steps[0]), steps[1..], last)
  }

  ghost predicate Init(st: State) {
    && st.tables == Tables(map[], map[]) && st.requests == map[] && st.filed == []
    && st.live == map[] && st.deletedAt == map[] && st.stored == [] && st.answers == []
  }

  // ---- the event table ----

  /** The table's row of an event is the one `live` numbers. */
  ghost predicate LiveRow(st: State, e: Event) {
    && (e in st.live <==> e in st.tables.events)
    && (e in st.live ==>
          && st.live[e] < |st.filed|
          && st.filed[st.live[e]].event == e && st.filed[st.live[e]].receivedAt == st.tables.events[e])
  }

  /** A row is in the table or was cleaned up, the latter only after the retention period. */
  ghost predicate RowAccounted(s: Settings, st: State, i: nat) {
    && (i in st.deletedAt ==>
          i < |st.filed| && st.filed[i].receivedAt + s.Retention() < st.deletedAt[i] <= st.now)
    && (i < |st.filed| && i !in st.deletedAt ==>
          st.filed[i].event in st.live && st.live[st.filed[i].event] == i)
  }

  /** A second row of an event is inserted only after the first one was deleted. */
  ghost predicate Superseded(st: State, i: nat, j: nat) {
    i < j < |st.filed| && st.filed[i].event == st.filed[j].event ==>
      i in st.deletedAt && st.deletedAt[i] <= st.filed[j].filedAt
  }

  ghost predicate EventBooks(s: Settings, st: State) {
    && (forall e :: LiveRow(st, e))
    && (forall i: nat :: RowAccounted(s, st, i))
    && (forall i: nat, j: nat :: Superseded(st, i, j))
  }

  lemma InsertKeepsBooks(s: Settings, st: State, filing: Filing)
    requires EventBooks(s, st) && filing.event !in st.tables.events && filing.filedAt == st.now
    ensures EventBooks(s, RowInserted(st, filing))
  {
    var st' := RowInserted(st, filing);
    var n := |st.filed|;
    assert LiveRow(st, filing.event);
    forall e
      ensures LiveRow(st', e)
    {
      assert LiveRow(st, e);
    }
    forall i: nat
      ensures RowAccounted(s, st', i)
    {
      assert RowAccounted(s, st, i);
    }
    forall i: nat, j: nat
      ensures Superseded(st', i, j)
    {
      assert Superseded(st, i, j) && RowAccounted(s, st, i);
    }
  }

  lemma CleanKeepsBooks(s: Settings, st: State, cutoff: Time)
    requires EventBooks(s, st) && cutoff <= st.now - s.Retention()
    ensures EventBooks(s, EventsCleaned(st, cutoff))
  {
    var st' := EventsCleaned(st, cutoff);
    forall e
      ensures LiveRow(st', e)
    {
      assert LiveRow(st, e);
    }
    forall i: nat
      ensures RowAccounted(s, st', i)
    {
      assert RowAccounted(s, st, i);
      if i < |st.filed| {
        assert LiveRow(st, st.filed[i].event);
      }
    }
    forall i: nat, j: nat
      ensures Superseded(st', i, j)
    {
      assert Superseded(st, i, j);
    }
  }

  ghost predicate EventsSame(st: State, st': State) {
    && st'.filed == st.filed && st'.live == st.live && st'.deletedAt == st.deletedAt
    && st'.tables.events == st.tables.events && st.now <= st'.now
  }

  lemma SameEvents(s: Settings, st: State, st': State)
    requires EventBooks(s, st) && EventsSame(st, st')
    ensures EventBooks(s, st')
  {
    forall e
      ensures LiveRow(st', e)
    {
      assert LiveRow(st, e);
    }
    forall i: nat
      ensures RowAccounted(s, st', i)
    {
      assert RowAccounted(s, st, i);
    }
    forall i: nat, j: nat
      ensures Superseded(st', i, j)
    {
      assert Superseded(st, i, j);
    }
  }

  lemma EventsUntouched(s: Settings, st: State, step: Step)
    requires Enabled(s, st, step) && !step.Persist? && !step.CleanEvents?
    ensures EventsSame(st, Do(s, st, step))
  {
    hide Refusal, Cached, CleanedRecords, PersistedBy, EventsCleaned;
    var st' := Do(s, st, step);
    if step.Read? || step.Reread? || step.Fetch? {
      assert EventsSame(st, st');
    } else if step.Lock? || step.Check? || step.Store? {
      assert EventsSame(st, st');
    } else {
      assert EventsSame(st, st');
    }
  }

  lemma BooksStep(s: Settings, st: State, step: Step)
    requires EventBooks(s, st) && Enabled(s, st, step)
    ensures EventBooks(s, Do(s, st, step))
  {
    hide EventBooks;
    if step.Persist? {
      hide RowInserted;
      var request := st.requests[step.r];
      var event := request.at.event;
      if event in st.tables.events {
        SameEvents(s, st, Do(s, st, step));
      } else {
        var storing := Goes(st, step.r, Storing(Body(Accepted, event), Some(|st.filed|)));
        SameEvents(s, st, storing);
        InsertKeepsBooks(s, storing,
                         Filing(event, request.delivery, request.begun, request.at.verifiedAt, step.received, st.now));
      }
    } else if step.CleanEvents? {
      CleanKeepsBooks(s, st, step.cutoff);
    } else {
      EventsUntouched(s, st, step);
      hide Do, Enabled;
      SameEvents(s, st, Do(s, st, step));
    }
  }

  // ---- "accepted" responses ----

  /** The event row a request is about to answer for. */
  ghost function Claim(st: State, r: nat): Option<nat> {
    if r in st.requests && st.requests[r].at.Storing? then st.requests[r].at.row else None
  }

  /** An "accepted" body goes with a row of its event. */
  ghost predicate Backed(body: Body, row: Option<nat>, filed: seq<Filing>) {
    && (row.Some? <==> body.status == Accepted)
    && (row.Some? ==> row.value < |filed| && filed[row.value].event == body.event)
  }

  ghost predicate ClaimsBacked(st: State) {
    && (forall r :: r in st.requests && st.requests[r].at.Storing? ==>
          Backed(st.requests[r].at.body, st.requests[r].at.row, st.filed))
    && (forall k :: 0 <= k < |st.stored| ==> Backed(st.stored[k].record.body, st.stored[k].row, st.filed))
  }

  /** A row is answered for at most once. */
  ghost predicate ClaimsDistinct(st: State) {
    && (forall r, q :: r != q && Claim(st, r).Some? ==> Claim(st, r) != Claim(st, q))
    && (forall r, k :: 0 <= k < |st.stored| && Claim(st, r).Some? ==> Claim(st, r) != st.stored[k].row)
    && (forall k, m :: 0 <= k < m < |st.stored| && st.stored[k].row.Some? ==> st.stored[k].row != st.stored[m].row)
  }

  ghost predicate AcceptedBooks(st: State) {
    ClaimsBacked(st) && ClaimsDistinct(st)
  }

  lemma PersistKeepsClaims(s: Settings, st: State, r: nat, received: Time)
    requires AcceptedBooks(st) && Enabled(s, st, Persist(r, received))
    ensures AcceptedBooks(Do(s, st, Persist(r, received)))
  {
    var st' := Do(s, st, Persist(r, received));
    assert st' == PersistedBy(st, r, received);
    hide Do, Enabled;
    var n := |st.filed|;
    assert forall i: nat :: i < n ==> st'.filed[i] == st.filed[i];
    forall q
      ensures q != r ==> Claim(st', q) == Claim(st, q)
      ensures Claim(st, q).Some? ==> Claim(st, q).value < n
    {
    }
    assert Claim(st', r) == st'.requests[r].at.row;
  }

  lemma StoreKeepsClaims(s: Settings, st: State, r: nat, clock: Time)
    requires AcceptedBooks(st) && Enabled(s, st, Store(r, clock))
    ensures AcceptedBooks(Do(s, st, Store(r, clock)))
  {
    var st' := Do(s, st, Store(r, clock));
    assert st' == StoredBy(s, st, r, clock);
    hide Do, Enabled;
    forall q
      ensures q != r ==> Claim(st', q) == Claim(st, q)
    {
    }
    assert Claim(st', r) == None;
    if st'.stored != st.stored {
      var n := |st.stored|;
      assert st'.stored[n].row == Claim(st, r);
      assert forall k :: 0 <= k < n ==> st'.stored[k] == st.stored[k];
    }
  }

  lemma ClaimsShrink(s: Settings, st: State, step: Step)
    requires Enabled(s, st, step) && !step.Persist? && !step.Store?
    ensures var st' := Do(s, st, step);
            && st'.filed == st.filed && st'.stored == st.stored
            && (forall r :: r in st'.requests && st'.requests[r].at.Storing? ==> r in st.requests && st'.requests[r] == st.requests[r])
  {
    hide Refusal, Cached, CleanedRecords, PersistedBy, StoredBy;
  }

  lemma ClaimsStep(s: Settings, st: State, step: Step)
    requires AcceptedBooks(st) && Enabled(s, st, step)
    ensures AcceptedBooks(Do(s, st, step))
  {
    if step.Persist? {
      PersistKeepsClaims(s, st, step.r, step.received);
    } else if step.Store? {
      StoreKeepsClaims(s, st, step.r, step.clock);
    } else {
      ClaimsShrink(s, st, step);
      hide Do, Enabled;
      var st' := Do(s, st, step);
      forall r
        ensures Claim(st', r).Some? ==> Claim(st', r) == Claim(st, r)
      {
      }
    }
  }

  // ---- response rows and answers ----

  /** Until its record has expired, an answer is what the table holds under its key. */
  ghost predicate Current(answer: Answer, st: State) {
    && answer.at <= st.now
    && (answer.record.expiresAt >= st.now ==>
          answer.scope in st.tables.records && st.tables.records[answer.scope] == answer.record)
  }

  ghost predicate AnswersCurrent(st: State) {
    forall k :: 0 <= k < |st.answers| ==> Current(st.answers[k], st)
  }

  ghost predicate AnswersAgree(st: State) {
    forall k, m :: 0 <= k < m < |st.answers| && st.answers[k].scope == st.answers[m].scope
                   && st.answers[m].at <= st.answers[k].record.expiresAt ==>
      st.answers[m].record == st.answers[k].record
  }

  ghost predicate HasStorage(stored: seq<Storage>, scope: string, record: Record) {
    exists k :: 0 <= k < |stored| && stored[k].scope == scope && stored[k].record == record
  }

  ghost predicate AllStored(st: State) {
    && (forall scope :: scope in st.tables.records ==> HasStorage(st.stored, scope, st.tables.records[scope]))
    && (forall k :: 0 <= k < |st.answers| ==> HasStorage(st.stored, st.answers[k].scope, st.answers[k].record))
  }

  ghost predicate AnswerBooks(st: State) {
    AnswersCurrent(st) && AnswersAgree(st) && AllStored(st)
  }

  /** One more answer, read from the row the table holds under its key. */
  lemma AppendAnswer(st: State, scope: string, record: Record)
    requires AnswerBooks(st) && scope in st.tables.records && st.tables.records[scope] == record
    ensures AnswerBooks(Answered(st, scope, record))
  {
    var st' := Answered(st, scope, record);
    var n := |st.answers|;
    assert forall k :: 0 <= k < n ==> st'.answers[k] == st.answers[k];
    forall k | 0 <= k < n
      ensures Current(st'.answers[k], st')
    {
      assert Current(st.answers[k], st);
    }
  }

  lemma AppendStorage(stored: seq<Storage>, storage: Storage)
    ensures HasStorage(stored + [storage], storage.scope, storage.record)
    ensures forall scope, record :: HasStorage(stored, scope, record) ==> HasStorage(stored + [storage], scope, record)
  {
    var more := stored + [storage];
    assert more[|stored|] == storage;
    forall scope, record | HasStorage(stored, scope, record)
      ensures HasStorage(more, scope, record)
    {
      var k :| 0 <= k < |stored| && stored[k].scope == scope && stored[k].record == record;
      assert more[k] == stored[k];
    }
  }

  /** A new row takes the place of no unexpired answer. */
  lemma NewRecord(st: State, scope: string, record: Record, row: Option<nat>)
    requires AnswerBooks(st) && scope !in st.tables.records
    ensures AnswerBooks(st.(tables := st.tables.(records := st.tables.records[scope := record]),
                            stored := st.stored + [Storage(scope, record, row)]))
  {
    var st' := st.(tables := st.tables.(records := st.tables.records[scope := record]),
                   stored := st.stored + [Storage(scope, record, row)]);
    AppendStorage(st.stored, Storage(scope, record, row));
    hide HasStorage;
    forall k | 0 <= k < |st'.answers|
      ensures Current(st'.answers[k], st')
    {
      assert Current(st.answers[k], st);
    }
  }

  /** The books depend on the clock, the response table and the answers only; a later clock and a cleanup keep them. */
  lemma OtherState(st: State, st': State)
    requires AnswerBooks(st) && st'.answers == st.answers && st'.stored == st.stored && st.now <= st'.now
    requires forall scope :: scope in st'.tables.records ==>
               scope in st.tables.records && st'.tables.records[scope] == st.tables.records[scope]
    requires forall scope :: scope in st.tables.records && st.tables.records[scope].expiresAt >= st'.now ==> scope in st'.tables.records
    ensures AnswerBooks(st')
  {
    hide HasStorage;
    forall k | 0 <= k < |st'.answers|
      ensures Current(st'.answers[k], st')
    {
      assert Current(st.answers[k], st);
    }
  }

  lemma StoreKeepsAnswers(s: Settings, st: State, r: nat, clock: Time)
    requires AnswerBooks(st) && Enabled(s, st, Store(r, clock))
    ensures AnswerBooks(Do(s, st, Store(r, clock)))
  {
    hide AnswerBooks;
    var st' := StoredBy(s, st, r, clock);
    var scope := st.requests[r].scope;
    if scope in st.tables.records {
      AnswersUntouched(st, st');
    } else {
      var record := st'.tables.records[scope];
      var row := st.requests[r].at.row;
      NewRecord(st, scope, record, row);
      var filed := st.(tables := st.tables.(records := st.tables.records[scope := record]),
                       stored := st.stored + [Storage(scope, record, row)]);
      AppendAnswer(filed, scope, record);
      AnswersUntouched(Answered(filed, scope, record), st');
    }
  }

  lemma AnswersUntouched(st: State, st': State)
    requires AnswerBooks(st) && st'.answers == st.answers && st'.stored == st.stored
    requires st'.tables.records == st.tables.records && st'.now == st.now
    ensures AnswerBooks(st')
  {
    OtherState(st, st');
  }

  lemma LookupKeepsAnswers(st: State, st': State, scope: string, clock: Time)
    requires AnswerBooks(st) && st'.stored == st.stored && st'.tables == st.tables && st'.now == st.now
    requires var found := Cached(st.tables.records, scope, clock);
             st'.answers == if found.Some? then Answered(st, scope, found.value).answers else st.answers
    ensures AnswerBooks(st')
  {
    hide AnswerBooks;
    var found := Cached(st.tables.records, scope, clock);
    if found.Some? {
      AppendAnswer(st, scope, found.value);
      AnswersUntouched(Answered(st, scope, found.value), st');
    } else {
      AnswersUntouched(st, st');
    }
  }

  lemma AnswersStep(s: Settings, st: State, step: Step)
    requires AnswerBooks(st) && Enabled(s, st, step)
    ensures AnswerBooks(Do(s, st, step))
  {
    hide AnswerBooks, Refusal;
    var st' := Do(s, st, step);
    match step
    case Store(r, clock) => StoreKeepsAnswers(s, st, r, clock);
    case Read(r, clock) => LookupKeepsAnswers(st, st', st.requests[r].scope, clock);
    case Reread(r, clock) => LookupKeepsAnswers(st, st', st.requests[r].scope, clock);
    case Fetch(r, clock) => LookupKeepsAnswers(st, st', st.requests[r].scope, clock);
    case Tick(_) => OtherState(st, st');
    case CleanRecords(_) => OtherState(st, st');
    case _ => AnswersUntouched(st, st');
  }

  /** A request that finds its key locked and then finds an unexpired answer gets it; otherwise it is refused. */
  lemma LoserGetsAnswer(s: Settings, st: State, r: nat, clock: Time)
    requires Enabled(s, st, Reread(r, clock))
    ensures var (st', scope) := (Do(s, st, Reread(r, clock)), st.requests[r].scope);
            && st'.answers == st.answers + (if Answerable(st.tables.records, scope, clock)
                                            then [Answer(scope, st.tables.records[scope], st.now)] else [])
            && st'.tables == st.tables && st'.locks == st.locks && st'.requests == st.requests - {r}
  {
  }

  // ---- runs ----

  ghost predicate Inv(s: Settings, st: State) {
    EventBooks(s, st) && AcceptedBooks(st) && AnswerBooks(st)
  }

  lemma {:induction false} InvRun(s: Settings, first: State, steps: seq<Step>, last: State)
    requires Inv(s, first) && Run(s, first, steps, last)
    ensures Inv(s, last)
    decreases |steps|
  {
    hide EventBooks, AcceptedBooks, AnswerBooks, Enabled, Do;
    if steps != [] {
      BooksStep(s, first, steps[0]);
      ClaimsStep(s, first, steps[0]);
      AnswersStep(s, first, steps[0]);
      InvRun(s, Do(s, first, steps[0]), steps[1..], last);
    }
  }

  /**
   Whatever happens to the locks, two stored responses that accept the same event stand for two different rows of it,
   and the earlier row was deleted, more than the retention period after it was received. So while an event row is
   retained no second response accepts its event on another row's account.
   */
  lemma AcceptedOncePerRow(s: Settings, first: State, steps: seq<Step>, last: State, k: nat, m: nat)
    requires Init(first) && Run(s, first, steps, last)
    requires k < m < |last.stored|
    requires last.stored[k].record.body.status == Accepted && last.stored[m].record.body == last.stored[k].record.body
    ensures last.stored[k].row.Some? && last.stored[m].row.Some? && last.stored[k].row != last.stored[m].row
    ensures var i, j := last.stored[k].row.value, last.stored[m].row.value;
            && i < |last.filed| && j < |last.filed|
            && last.filed[i].event == last.filed[j].event == last.stored[k].record.body.event
            && var earlier := if i < j then i else j;
               earlier in last.deletedAt && last.filed[earlier].receivedAt + s.Retention() < last.deletedAt[earlier]
  {
    hide Run, AnswerBooks;
    assert Inv(s, first) by {
      FirstState(s, first);
    }
    InvRun(s, first, steps, last);
    var i, j := last.stored[k].row.value, last.stored[m].row.value;
    assert Superseded(last, i, j) && Superseded(last, j, i);
    assert RowAccounted(s, last, i) && RowAccounted(s, last, j);
  }

  lemma FirstState(s: Settings, first: State)
    requires Init(first)
    ensures Inv(s, first)
  {
  }

  /** With no event row deleted, an event is accepted at most once, however many keys and requests carry it. */
  lemma AcceptedOnceWhileRetained(s: Settings, first: State, steps: seq<Step>, last: State)
    requires Init(first) && Run(s, first, steps, last) && last.deletedAt == map[]
    ensures forall k, m :: 0 <= k < m < |last.stored| && last.stored[k].record.body.status == Accepted ==>
              last.stored[m].record.body != last.stored[k].record.body
  {
    hide Run;
    forall k: nat, m: nat | k < m < |last.stored| && last.stored[k].record.body.status == Accepted
      ensures last.stored[m].record.body != last.stored[k].record.body
    {
      if last.stored[m].record.body == last.stored[k].record.body {
        AcceptedOncePerRow(s, first, steps, last, k, m);
        assert false;
      }
    }
  }

  /**
   Two answers under one key, the second given while the first one's row is unexpired, are the same response; and
   every answer is a response that was stored under its key.
   */
  lemma SameAnswerUntilExpiry(s: Settings, first: State, steps: seq<Step>, last: State)
    requires Init(first) && Run(s, first, steps, last)
    ensures forall k, m :: 0 <= k < m < |last.answers| && last.answers[k].scope == last.answers[m].scope
                           && last.answers[m].at <= last.answers[k].record.expiresAt ==>
              last.answers[m].record == last.answers[k].record
    ensures forall k :: 0 <= k < |last.answers| ==> HasStorage(last.stored, last.answers[k].scope, last.answers[k].record)
  {
    hide Run, EventBooks, AcceptedBooks;
    assert Inv(s, first) by {
      FirstState(s, first);
    }
    InvRun(s, first, steps, last);
  }
}

/**
 Runs of the queue with every queue function as one atomic step: any number of workers, reclaimers,
 promoters and operator requeues. A worker may die while its handler runs. The one timing assumption is
 in `Tick`: time does not pass the visibility timeout of a lease whose worker is still alive.
 */
module Leases {
  import opened Clock
  import opened Wrappers
  import opened Jobs
  import opened Backoff
  import opened JobQueue
  import opened Worker
  import opened QueueWeights

  /**
   `live` holds the lease of each worker whose handler is running. `ids`, `acked` and `notBefore` are
   history: the ids ever enqueued, the ids acknowledged, and the retry time of an id that failed.
   */
  datatype State = State(
    q: Queues,
    now: Time,
    live: map<nat, Job>,
    ids: set<string>,
    acked: multiset<string>,
    notBefore: map<string, Time>)

  datatype Step =
    | Enqueue(id: string, kind: string, payload: Json, requestId: Option<string>)
    | Dequeue(worker: nat)
    | Settle(worker: nat, run: HandlerRun)
    | Promote(due: seq<Json>, limit: Option<int>)
    | Reclaim
    | Requeue(limit: Option<int>)
    | Tick(to: Time)
    | Die(worker: nat)

  ghost predicate Enabled(s: Settings, st: State, step: Step) {
    match step
    case Enqueue(id, _, _, _) => id !in st.ids
    case Dequeue(worker) => worker !in st.live
    case Settle(worker, _) => worker in st.live
    case Promote(due, _) => DueOrder(st.q.delayed, st.now, due)
    case Reclaim => true
    case Requeue(_) => true
    case Tick(to) => st.now <= to && forall w :: w in st.live ==> !IsStale(s, st.live[w], to)
    case Die(worker) => worker in st.live
  }

  ghost function Do(s: Settings, st: State, step: Step): State
    requires Enabled(s, st, step)
  {
    match step
    case Enqueue(id, kind, payload, requestId) =>
      var job := Job(id, kind, payload, 0, requestId, None, None, None);
      st.(q := Enqueued(st.q, job), ids := st.ids + {id})
    case Dequeue(worker) => Delivered(st, worker)
    case Settle(worker, run) => Finished(s, st, worker, run)
    case Promote(due, limit) => st.(q := Promoted(st.q, due, limit))
    case Reclaim => st.(q := Reclaimed(s, st.q, st.now))
    case Requeue(limit) => st.(q := Requeued(st.q, limit))
    case Tick(to) => st.(now := to)
    case Die(worker) => st.(live := st.live - {worker})
  }

  ghost function Delivered(st: State, worker: nat): State {
    var (q, result) := Leased(st.q, st.now);
    match result
    case Success(Some(job)) => st.(q := q, live := st.live[worker := job])
    case _ => st.(q := q)
  }

  ghost function Finished(s: Settings, st: State, worker: nat, run: HandlerRun): State
    requires worker in st.live
  {
    var job := st.live[worker];
    var outcome := HandleJob(job, run);
    st.(q := Settled(s, st.q, job, outcome, st.now),
        live := st.live - {worker},
        acked := if outcome.Completed? then st.acked + multiset{job.id} else st.acked,
        notBefore := if WillRetry(s, job, outcome) then st.notBefore[job.id := RetryTime(s, job, st.now)] else st.notBefore)
  }

  ghost predicate WillRetry(s: Settings, job: Job, outcome: Outcome) {
    outcome.Raised? && job.attempts < s.maxRetries
  }

  /**
   A settled job is acknowledged if and only if its handler returned, its kind is registered and its payload has the
   member it needs; any other goes to the delayed or the failed entries, with every field as it should be.
   */
  lemma AcknowledgedIff(s: Settings, st: State, worker: nat, run: HandlerRun)
    requires s.Valid() && worker in st.live
    ensures var st', job := Do(s, st, Settle(worker, run)), st.live[worker];
            && st'.acked == st.acked + (if Done(job, run) then multiset{job.id} else multiset{})
            && SettledRight(s, st.q, st'.q, job, run, st.now)
            && st'.q.processing == LRem(st.q.processing, ToJson(job)) && st'.q.main == st.q.main
            && st'.notBefore == (if !Done(job, run) && KnownKind(job) && job.attempts < s.maxRetries
                                 then st.notBefore[job.id := st.now + Doubling(s, job.attempts + 1) * SECOND] else st.notBefore)
  {
    hide HandleJob, Settled, SettledRight, Done, KnownKind, ToJson;
    var job := st.live[worker];
    CompletedIff(job, run);
    SettledIsRight(s, st.q, job, run, st.now);
    RetryTimeIsDoubling(s, job, st.now);
  }

  ghost predicate Run(s: Settings, first: State, steps: seq<Step>, last: State)
    decreases |steps|
  {
    if steps == [] then
      first == last
    else
      Enabled(s, first, steps[0]) && Run(s, Do(s, first, steps[0]), steps[1..], last)
  }

  ghost predicate Init(st: State) {
    st.q == Queues([], [], map[], []) && st.live == map[] && st.ids == {} && st.acked == multiset{} && st.notBefore == map[]
  }

  // ---- counting the entries of one id ----

  ghost function Tally(id: string): Json -> int {
    (raw: Json) => if IdOf(raw) == Some(id) then 1 else 0
  }

  ghost function ById(id: string): Weights {
    Weights(Tally(id), Tally(id), Tally(id), Tally(id))
  }

  /** How many entries of the four structures carry the id. */
  ghost function Count(id: string, q: Queues): int {
    Weight(ById(id), q)
  }

  ghost predicate Absent(id: string, entries: set<Json>) {
    forall raw :: raw in entries ==> IdOf(raw) != Some(id)
  }

  function Elements(list: seq<Json>): set<Json> {
    set raw | raw in list
  }

  lemma {:induction false} TallyList(id: string, list: seq<Json>)
    ensures Sum(Tally(id), list) >= 0
    ensures Sum(Tally(id), list) == 0 <==> Absent(id, Elements(list))
  {
    hide IdOf;
    if list != [] {
      TallyList(id, list[1..]);
      assert Elements(list) == {list[0]} + Elements(list[1..]);
    }
  }

  lemma {:induction false} TallySet(id: string, s: set<Json>)
    ensures SumSet(Tally(id), s) >= 0
    ensures SumSet(Tally(id), s) == 0 <==> Absent(id, s)
    decreases s
  {
    hide IdOf;
    if s != {} {
      var x :| x in s;
      SumSetRemove(Tally(id), s, x);
      TallySet(id, s - {x});
    }
  }

  // ---- the invariant ----

  ghost predicate AllParse(q: Queues) {
    && (forall raw :: raw in q.main ==> FromJson(raw).Success?)
    && (forall raw :: raw in q.processing ==> FromJson(raw).Success?)
    && (forall raw :: raw in q.delayed ==> FromJson(raw).Success?)
    && (forall raw :: raw in q.failed ==> FromJson(raw).Success?)
  }

  /** Every enqueued id is in exactly one place: one entry of one structure, or acknowledged once. */
  ghost predicate Accounted(st: State) {
    forall id :: Count(id, st.q) + st.acked[id] == if id in st.ids then 1 else 0
  }

  /** A live worker's lease is not stale, is still in the processing list, and nobody else holds that id. */
  ghost predicate LeasesHeld(s: Settings, st: State) {
    && (forall w :: w in st.live ==> !IsStale(s, st.live[w], st.now) && ToJson(st.live[w]) in st.q.processing)
    && (forall v, w :: v in st.live && w in st.live && v != w ==> st.live[v].id != st.live[w].id)
  }

  /** Outside the delayed set an id's retry time has come; inside, the score is at least that time. */
  ghost predicate TimesKept(st: State) {
    && st.notBefore.Keys <= st.ids
    && (forall raw, id :: id in st.notBefore && IdOf(raw) == Some(id)
                          && (raw in st.q.main || raw in st.q.processing || raw in st.q.failed)
          ==> st.notBefore[id] <= st.now)
    && (forall raw, id :: id in st.notBefore && IdOf(raw) == Some(id) && raw in st.q.delayed
          ==> st.notBefore[id] <= st.q.delayed[raw])
  }

  ghost predicate Inv(s: Settings, st: State) {
    AllParse(st.q) && Accounted(st) && LeasesHeld(s, st) && TimesKept(st)
  }

  // ---- entries and ids ----

  lemma IdOfToJson(job: Job)
    ensures FromJson(ToJson(job)) == Success(job) && IdOf(ToJson(job)) == Some(job.id)
  {
    RoundTrip(job);
  }

  lemma RewrittenKeepsId(raw: Json)
    requires FromJson(raw).Success?
    ensures FromJson(Rewritten(raw)).Success? && IdOf(Rewritten(raw)) == IdOf(raw)
    ensures FromJson(Stripped(raw)).Success? && IdOf(Stripped(raw)) == IdOf(raw)
  {
    hide FromJson, ToJson;
    IdOfToJson(FromJson(raw).value);
    IdOfToJson(FromJson(raw).value.WithoutProcessingStartedAt());
  }

  lemma UnparsedCopies(raw: Json)
    requires FromJson(raw).Failure?
    ensures Rewritten(raw) == raw && Stripped(raw) == raw
  {
  }

  /** An id with one entry in processing has no other entry anywhere. */
  lemma OnlyInProcessing(q: Queues, job: Job)
    requires Count(job.id, q) <= 1 && ToJson(job) in q.processing
    ensures Absent(job.id, Elements(q.main)) && Absent(job.id, q.delayed.Keys) && Absent(job.id, Elements(q.failed))
    ensures Absent(job.id, Elements(LRem(q.processing, ToJson(job))))
  {
    hide IdOf, ToJson;
    var f, raw := Tally(job.id), ToJson(job);
    IdOfToJson(job);
    TallyList(job.id, q.main);
    TallyList(job.id, q.processing);
    TallySet(job.id, q.delayed.Keys);
    TallyList(job.id, q.failed);
    SumLRem(f, q.processing, raw);
    TallyList(job.id, LRem(q.processing, raw));
    assert raw in Elements(q.processing);
  }

  lemma CountNonNegative(id: string, q: Queues)
    ensures Count(id, q) >= 0
  {
    TallyList(id, q.main);
    TallyList(id, q.processing);
    TallySet(id, q.delayed.Keys);
    TallyList(id, q.failed);
  }

  lemma {:induction false} LRemMembers(list: seq<Json>, value: Json, raw: Json)
    ensures raw in LRem(list, value) ==> raw in list
    ensures raw in list && raw != value ==> raw in LRem(list, value)
  {
    if list != [] {
      if list[0] != value {
        LRemMembers(list[1..], value, raw);
      }
      assert list == [list[0]] + list[1..];
    }
  }

  lemma {:induction false} ReverseMembers(list: seq<Json>, raw: Json)
    ensures raw in Reverse(list) <==> raw in list
  {
    if list != [] {
      ReverseMembers(list[1..], raw);
      assert list == [list[0]] + list[1..];
    }
  }

  lemma {:induction false} ReturnedMembers(s: Settings, entries: seq<Json>, now: Time, raw: Json)
    ensures raw in Returned(s, entries, now) ==> exists lease :: lease in entries && StaleEntry(s, lease, now) && raw == Stripped(lease)
  {
    hide Stripped, StaleEntry;
    if entries != [] {
      var last, front := entries[|entries| - 1], entries[..|entries| - 1];
      assert entries == front + [last];
      ReturnedMembers(s, front, now, raw);
    }
  }

  // ---- every step keeps the account: one place per id ----

  lemma CountAfterSettle(s: Settings, st: State, worker: nat, run: HandlerRun, id: string)
    requires Inv(s, st) && worker in st.live
    ensures var job := st.live[worker];
            Count(id, Finished(s, st, worker, run).q)
            == Count(id, st.q) - if HandleJob(job, run).Completed? && id == job.id then 1 else 0
  {
    hide IdOf, ToJson, FromJson;
    var job := st.live[worker];
    var w := ById(id);
    IdOfToJson(job);
    assert Count(job.id, st.q) + st.acked[job.id] <= 1;
    OnlyInProcessing(st.q, job);
    match HandleJob(job, run) {
      case Completed =>
        AckedWeight(w, st.q, job);
      case UnknownType(message) =>
        IdOfToJson(FailedCopy(job, Some(message), st.now));
        FailedWeight(w, st.q, job, Some(message), st.now);
      case Raised(message) =>
        IdOfToJson(FailedCopy(job, Some(message), st.now));
        IdOfToJson(RetryCopy(job, message));
        if job.attempts < s.maxRetries {
          RetriedWeight(w, s, st.q, job, message, st.now);
        } else {
          FailedWeight(w, st.q, job, Some(message), st.now);
        }
    }
  }

  lemma CountAfterDequeue(st: State, worker: nat, id: string)
    requires AllParse(st.q)
    ensures Count(id, Delivered(st, worker).q) == Count(id, st.q)
  {
    hide IdOf, ToJson, FromJson;
    if st.q.main != [] {
      var raw := st.q.main[|st.q.main| - 1];
      assert raw in st.q.main;
      LeasedWeight(ById(id), st.q, st.now);
      IdOfLease(raw, st.now);
    }
  }

  lemma IdOfLease(raw: Json, now: Time)
    requires FromJson(raw).Success?
    ensures IdOf(ToJson(FromJson(raw).value.WithProcessingStartedAt(now))) == IdOf(raw) == Some(FromJson(raw).value.id)
  {
    hide FromJson, ToJson;
    IdOfToJson(FromJson(raw).value.WithProcessingStartedAt(now));
  }

  lemma CountAfterPromote(st: State, due: seq<Json>, limit: Option<int>, id: string)
    requires DueOrder(st.q.delayed, st.now, due)
    ensures Count(id, Promoted(st.q, due, limit)) == Count(id, st.q)
  {
    PromotedWeight(ById(id), st.q, st.now, due, limit);
  }

  lemma CountAfterReclaim(s: Settings, st: State, id: string)
    ensures Count(id, Reclaimed(s, st.q, st.now)) == Count(id, st.q)
  {
    hide IdOf, Stripped;
    forall raw | FromJson(raw).Success?
      ensures Tally(id)(Stripped(raw)) == Tally(id)(raw)
    {
      RewrittenKeepsId(raw);
    }
    ReclaimedWeight(ById(id), s, st.q, st.now);
  }

  lemma CountAfterRequeue(st: State, limit: Option<int>, id: string)
    requires AllParse(st.q)
    ensures Count(id, Requeued(st.q, limit)) == Count(id, st.q)
  {
    hide IdOf, Rewritten, FromJson;
    forall raw
      ensures Tally(id)(Rewritten(raw)) == Tally(id)(raw)
    {
      if FromJson(raw).Success? {
        RewrittenKeepsId(raw);
      } else {
        UnparsedCopies(raw);
      }
    }
    RequeuedWeight(ById(id), st.q, limit);
  }

  lemma AccountedStep(s: Settings, st: State, step: Step)
    requires Inv(s, st) && Enabled(s, st, step)
    ensures Accounted(Do(s, st, step))
  {
    hide IdOf, ToJson, FromJson, Count, Settled, Leased, Promoted, Reclaimed, Requeued, Enqueued;
    forall id
      ensures Count(id, Do(s, st, step).q) + Do(s, st, step).acked[id] == if id in Do(s, st, step).ids then 1 else 0
    {
      assert Count(id, st.q) + st.acked[id] == if id in st.ids then 1 else 0;
      match step {
        case Enqueue(newId, kind, payload, requestId) =>
          CountAfterEnqueue(st, Job(newId, kind, payload, 0, requestId, None, None, None), id);
        case Dequeue(worker) => CountAfterDequeue(st, worker, id);
        case Settle(worker, run) => CountAfterSettle(s, st, worker, run, id);
        case Promote(due, limit) => CountAfterPromote(st, due, limit, id);
        case Reclaim => CountAfterReclaim(s, st, id);
        case Requeue(limit) => CountAfterRequeue(st, limit, id);
        case Tick(_) =>
        case Die(_) =>
      }
    }
  }

  lemma CountAfterEnqueue(st: State, job: Job, id: string)
    ensures Count(id, Enqueued(st.q, job)) == Count(id, st.q) + if id == job.id then 1 else 0
  {
    hide IdOf, ToJson;
    EnqueuedWeight(ById(id), st.q, job);
    IdOfToJson(job);
  }

  // ---- every step keeps the entries readable and the retry times respected ----

  ghost predicate Readable(st: State) {
    AllParse(st.q) && TimesKept(st)
  }

  lemma ReadableAfterEnqueue(st: State, job: Job)
    requires Readable(st) && job.id !in st.ids
    ensures Readable(st.(q := Enqueued(st.q, job), ids := st.ids + {job.id}))
  {
    hide IdOf, ToJson, FromJson;
    IdOfToJson(job);
  }

  lemma ReadableAfterDequeue(st: State, worker: nat)
    requires Readable(st)
    ensures Readable(Delivered(st, worker))
  {
    hide IdOf, ToJson, FromJson;
    if st.q.main != [] {
      var raw := st.q.main[|st.q.main| - 1];
      assert raw in st.q.main;
      IdOfLease(raw, st.now);
      IdOfToJson(FromJson(raw).value.WithProcessingStartedAt(st.now));
    }
  }

  lemma ReadableAfterSettle(s: Settings, st: State, worker: nat, run: HandlerRun)
    requires Inv(s, st) && worker in st.live
    ensures Readable(Finished(s, st, worker, run))
  {
    hide IdOf, ToJson, FromJson, LRem, Count, AllParse, TimesKept, RetryCopy, FailedCopy;
    var job := st.live[worker];
    assert Count(job.id, st.q) + st.acked[job.id] == if job.id in st.ids then 1 else 0;
    HeldIsCounted(st.q, job);
    OnlyInProcessing(st.q, job);
    match HandleJob(job, run) {
      case Completed => ReadableAfterAck(st, job);
      case UnknownType(message) => ReadableAfterFail(st, job, message);
      case Raised(message) =>
        if job.attempts < s.maxRetries {
          ReadableAfterRetry(s, st, worker, message, run);
        } else {
          ReadableAfterFail(st, job, message);
        }
    }
    if !WillRetry(s, job, HandleJob(job, run)) {
      ReadableIgnoresHistory(Finished(s, st, worker, run), st);
    }
  }

  /** Only the queues, the clock, the retry times and the ids matter. */
  lemma ReadableIgnoresHistory(a: State, b: State)
    requires a.now == b.now && a.notBefore == b.notBefore && a.ids == b.ids
    ensures Readable(b.(q := a.q)) <==> Readable(a)
  {
    hide IdOf, FromJson;
  }

  lemma ReadableAfterAck(st: State, job: Job)
    requires Readable(st)
    ensures Readable(st.(q := Acked(st.q, job)))
  {
    hide IdOf, ToJson, FromJson, LRem;
    forall entry
      ensures entry in LRem(st.q.processing, ToJson(job)) ==> entry in st.q.processing
    {
      LRemMembers(st.q.processing, ToJson(job), entry);
    }
  }

  lemma ReadableAfterFail(st: State, job: Job, message: string)
    requires Readable(st) && ToJson(job) in st.q.processing
    ensures Readable(st.(q := Failed(st.q, job, Some(message), st.now)))
  {
    hide IdOf, ToJson, FromJson, LRem, FailedCopy;
    ReadableAfterAck(st, job);
    IdOfToJson(job);
    var copy := FailedCopy(job, Some(message), st.now);
    IdOfToJson(copy);
    assert copy.id == job.id by {
      FailedCopyId(job, message, st.now);
    }
  }

  lemma FailedCopyId(job: Job, message: string, now: Time)
    ensures FailedCopy(job, Some(message), now).id == job.id
  {
  }

  lemma HeldIsCounted(q: Queues, job: Job)
    requires ToJson(job) in q.processing
    ensures Count(job.id, q) >= 1
  {
    hide ToJson, IdOf;
    IdOfToJson(job);
    TallyList(job.id, q.main);
    TallyList(job.id, q.processing);
    TallySet(job.id, q.delayed.Keys);
    TallyList(job.id, q.failed);
    assert ToJson(job) in Elements(q.processing);
  }

  lemma ReadableAfterRetry(s: Settings, st: State, worker: nat, message: string, run: HandlerRun)
    requires Readable(st) && worker in st.live
    requires var job := st.live[worker];
             && HandleJob(job, run) == Raised(message) && job.attempts < s.maxRetries
             && job.id in st.ids
             && Absent(job.id, Elements(st.q.main)) && Absent(job.id, st.q.delayed.Keys)
             && Absent(job.id, Elements(st.q.failed))
             && Absent(job.id, Elements(LRem(st.q.processing, ToJson(job))))
    ensures Readable(Finished(s, st, worker, run))
  {
    hide IdOf, ToJson, FromJson, LRem, HandleJob;
    var job := st.live[worker];
    var raw := ToJson(job);
    IdOfToJson(RetryCopy(job, message));
    forall entry
      ensures entry in LRem(st.q.processing, raw) ==> entry in st.q.processing
    {
      LRemMembers(st.q.processing, raw, entry);
    }
    assert forall entry :: entry in st.q.main ==> entry in Elements(st.q.main);
    assert forall entry :: entry in st.q.failed ==> entry in Elements(st.q.failed);
    assert forall entry :: entry in LRem(st.q.processing, raw) ==> entry in Elements(LRem(st.q.processing, raw));
  }

  lemma ReadableAfterPromote(st: State, due: seq<Json>, limit: Option<int>)
    requires Readable(st) && DueOrder(st.q.delayed, st.now, due)
    ensures Readable(st.(q := Promoted(st.q, due, limit)))
  {
    hide IdOf, ToJson, FromJson, Reverse;
    var moved := due[..Taken(|due|, limit)];
    forall entry
      ensures entry in Reverse(moved) ==> entry in due
    {
      ReverseMembers(moved, entry);
    }
  }

  lemma ReadableAfterReclaim(s: Settings, st: State)
    requires Readable(st)
    ensures Readable(st.(q := Reclaimed(s, st.q, st.now)))
  {
    hide IdOf, ToJson, FromJson, Stripped, Returned, Fresh;
    var scanned := st.q.processing[..ReadablePrefix(st.q.processing)];
    forall entry
      ensures entry in Fresh(s, scanned, st.now) ==> entry in st.q.processing
    {
      FreshKeepsNoStale(s, scanned, st.now, entry);
    }
    forall entry | entry in Returned(s, scanned, st.now)
      ensures FromJson(entry).Success?
      ensures exists lease :: lease in st.q.processing && IdOf(entry) == IdOf(lease)
    {
      ReturnedMembers(s, scanned, st.now, entry);
      var lease :| lease in scanned && StaleEntry(s, lease, st.now) && entry == Stripped(lease);
      RewrittenKeepsId(lease);
    }
  }

  lemma ReadableAfterRequeue(st: State, limit: Option<int>)
    requires Readable(st)
    ensures Readable(st.(q := Requeued(st.q, limit)))
  {
    hide IdOf, ToJson, FromJson, Rewritten, RewrittenAll, Requeued;
    forall entry | entry in Requeued(st.q, limit).main && entry !in st.q.main
      ensures FromJson(entry).Success?
      ensures exists dead :: dead in st.q.failed && IdOf(entry) == IdOf(dead)
    {
      RequeuedMembers(st.q, limit, entry);
      var dead :| dead in st.q.failed && entry == Rewritten(dead);
      RewrittenKeepsId(dead);
    }
    RequeuedRest(st.q, limit);
  }

  lemma {:induction false} ReadableThroughout(entries: seq<Json>)
    requires forall raw :: raw in entries ==> FromJson(raw).Success?
    ensures ReadableSuffix(entries) == |entries|
  {
    hide FromJson;
    if entries != [] {
      assert entries[|entries| - 1] in entries;
      ReadableThroughout(entries[..|entries| - 1]);
    }
  }

  lemma RequeuedMembers(q: Queues, limit: Option<int>, entry: Json)
    requires AllParse(q) && entry in Requeued(q, limit).main && entry !in q.main
    ensures exists dead :: dead in q.failed && entry == Rewritten(dead)
  {
    hide FromJson, Rewritten, ReadableSuffix;
    ReadableThroughout(q.failed);
    hide AllParse;
    var moved := q.failed[|q.failed| - Taken(|q.failed|, limit)..];
    assert entry in RewrittenAll(moved);
    var i :| 0 <= i < |moved| && entry == Rewritten(moved[i]);
    assert moved[i] in q.failed;
  }

  lemma RequeuedRest(q: Queues, limit: Option<int>)
    requires AllParse(q)
    ensures var r := Requeued(q, limit);
            r.processing == q.processing && r.delayed == q.delayed && forall raw :: raw in r.failed ==> raw in q.failed
  {
    hide FromJson, Rewritten, RewrittenAll, ReadableSuffix;
    ReadableThroughout(q.failed);
  }

  lemma ReadableStep(s: Settings, st: State, step: Step)
    requires Inv(s, st) && Enabled(s, st, step)
    ensures Readable(Do(s, st, step))
  {
    hide IdOf, ToJson, FromJson, Settled, Leased, Promoted, Reclaimed, Requeued, Enqueued, DueOrder, Accounted, LeasesHeld, Delivered, Finished;
    match step {
      case Enqueue(id, kind, payload, requestId) =>
        ReadableAfterEnqueue(st, Job(id, kind, payload, 0, requestId, None, None, None));
      case Dequeue(worker) => ReadableAfterDequeue(st, worker);
      case Settle(worker, run) => ReadableAfterSettle(s, st, worker, run);
      case Promote(due, limit) => ReadableAfterPromote(st, due, limit);
      case Reclaim => ReadableAfterReclaim(s, st);
      case Requeue(limit) => ReadableAfterRequeue(st, limit);
      case Tick(_) =>
      case Die(_) =>
    }
  }

  // ---- every step keeps the live leases ----

  lemma LeasesAfterDequeue(s: Settings, st: State, worker: nat)
    requires s.Valid() && Inv(s, st) && worker !in st.live
    ensures LeasesHeld(s, Delivered(st, worker))
  {
    hide IdOf, ToJson, FromJson, Count;
    if st.q.main != [] {
      var raw := st.q.main[|st.q.main| - 1];
      assert raw in st.q.main;
      var lease := FromJson(raw).value.WithProcessingStartedAt(st.now);
      IdOfLease(raw, st.now);
      forall w | w in st.live
        ensures st.live[w].id != lease.id
      {
        assert Count(st.live[w].id, st.q) + st.acked[st.live[w].id] <= 1;
        OnlyInProcessing(st.q, st.live[w]);
        assert raw in Elements(st.q.main);
      }
    }
  }

  lemma LeasesAfterSettle(s: Settings, st: State, worker: nat, run: HandlerRun)
    requires Inv(s, st) && worker in st.live
    ensures LeasesHeld(s, Finished(s, st, worker, run))
  {
    hide IdOf, ToJson, FromJson, HandleJob, LRem, IsStale;
    var job := st.live[worker];
    forall w | w in st.live && w != worker
      ensures ToJson(st.live[w]) in LRem(st.q.processing, ToJson(job))
    {
      IdOfToJson(job);
      IdOfToJson(st.live[w]);
      LRemMembers(st.q.processing, ToJson(job), ToJson(st.live[w]));
    }
  }

  lemma LeasesAfterReclaim(s: Settings, st: State)
    requires Inv(s, st)
    ensures LeasesHeld(s, st.(q := Reclaimed(s, st.q, st.now)))
  {
    hide IdOf, ToJson, FromJson, Fresh, Returned, IsStale;
    var k := ReadablePrefix(st.q.processing);
    forall w | w in st.live
      ensures ToJson(st.live[w]) in Reclaimed(s, st.q, st.now).processing
    {
      var raw := ToJson(st.live[w]);
      IdOfToJson(st.live[w]);
      FreshKeepsNoStale(s, st.q.processing[..k], st.now, raw);
      assert st.q.processing == st.q.processing[..k] + st.q.processing[k..];
    }
  }

  lemma LeasesStep(s: Settings, st: State, step: Step)
    requires s.Valid() && Inv(s, st) && Enabled(s, st, step)
    ensures LeasesHeld(s, Do(s, st, step))
  {
    hide IdOf, ToJson, FromJson, Reclaimed, DueOrder, Accounted, Readable, Delivered, Finished, IsStale;
    match step {
      case Dequeue(worker) => LeasesAfterDequeue(s, st, worker);
      case Settle(worker, run) => LeasesAfterSettle(s, st, worker, run);
      case Reclaim => LeasesAfterReclaim(s, st);
      case _ =>
    }
  }

  lemma InvStep(s: Settings, st: State, step: Step)
    requires s.Valid() && Inv(s, st) && Enabled(s, st, step)
    ensures Inv(s, Do(s, st, step))
  {
    hide Enabled, Do, AllParse, Accounted, LeasesHeld, TimesKept;
    AccountedStep(s, st, step);
    ReadableStep(s, st, step);
    LeasesStep(s, st, step);
  }

  lemma InvInit(s: Settings, st: State)
    requires Init(st)
    ensures Inv(s, st)
  {
    forall id
      ensures Count(id, st.q) == 0
    {
      TallySet(id, {});
    }
  }

  lemma {:induction false} InvRun(s: Settings, first: State, steps: seq<Step>, last: State)
    requires s.Valid() && Inv(s, first) && Run(s, first, steps, last)
    ensures Inv(s, last)
    decreases |steps|
  {
    hide Inv, Enabled, Do;
    if steps != [] {
      InvStep(s, first, steps[0]);
      InvRun(s, Do(s, first, steps[0]), steps[1..], last);
    }
  }
}

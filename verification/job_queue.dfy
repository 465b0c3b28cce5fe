/**
 The Redis job queue: what each queue function does to the main, processing, delayed and failed
 structures, and the functions themselves as commands on a mutable store.
 Index 0 of a list is its head, the end LPUSH pushes to; RPOP takes the last index.
 */
module JobQueue {
  import opened Clock
  import opened Wrappers
  import opened Jobs
  import opened Backoff

  datatype Queues = Queues(main: seq<Json>, processing: seq<Json>, delayed: map<Json, Time>, failed: seq<Json>)

  /** LREM list 1 value: drop the occurrence nearest to the head, if any. */
  function LRem(list: seq<Json>, value: Json): seq<Json> {
    if list == [] then []
    else if list[0] == value then list[1..]
    else [list[0]] + LRem(list[1..], value)
  }

  function Reverse(list: seq<Json>): (r: seq<Json>)
    ensures |r| == |list|
  {
    if list == [] then [] else Reverse(list[1..]) + [list[0]]
  }

  // ---- what contracts say, field by field ----

  /** An error text as it is stored: its first 500 characters. */
  ghost function Short(message: string): string {
    message[..if |message| < 500 then |message| else 500]
  }

  /** The lease of a job. */
  ghost function LeaseAt(job: Job, now: Time): Job {
    Job(job.id, job.kind, job.payload, job.attempts, job.requestId, job.lastError, job.failedAt, Some(now))
  }

  /** The job without its lease. */
  ghost function Unleased(job: Job): Job {
    Job(job.id, job.kind, job.payload, job.attempts, job.requestId, job.lastError, job.failedAt, None)
  }

  /** The next attempt of a job that failed. */
  ghost function NextTry(job: Job, error: string): Job {
    Job(job.id, job.kind, job.payload, job.attempts + 1, job.requestId, Some(Short(error)), job.failedAt, None)
  }

  /** A job given up. */
  ghost function DeadCopy(job: Job, error: Option<string>, now: Time): Job {
    Job(job.id, job.kind, job.payload, job.attempts, job.requestId,
        if error.Some? then Some(Short(error.value)) else if job.lastError.Some? then Some(Short(job.lastError.value)) else None,
        Some(now), job.startedAt)
  }

  /** The lease of the entry has run out, or it never had one. */
  ghost predicate LeaseOver(s: Settings, raw: Json, now: Time) {
    match FromJson(raw)
    case Success(job) => job.startedAt == None || job.startedAt.value + s.visibilityTimeout * SECOND <= now
    case Failure(_) => false
  }

  // ---- effect of each queue function ----

  function Enqueued(q: Queues, job: Job): Queues {
    q.(main := [ToJson(job)] + q.main)
  }

  /** The entry at the tail of main becomes a lease, stamped now, at the head of processing. */
  function Leased(q: Queues, now: Time): (Queues, Result<Option<Job>, string>) {
    if q.main == [] then
      (q, Success(None))
    else
      var raw := q.main[|q.main| - 1];
      var rest := q.(main := q.main[..|q.main| - 1]);
      match FromJson(raw)
      case Failure(error) => (rest.(processing := [raw] + q.processing), Failure(error))
      case Success(job) =>
        var lease := job.WithProcessingStartedAt(now);
        (rest.(processing := [ToJson(lease)] + q.processing), Success(Some(lease)))
  }

  function Acked(q: Queues, job: Job): Queues {
    q.(processing := LRem(q.processing, ToJson(job)))
  }

  function RetryCopy(job: Job, error: string): Job {
    job.WithNextAttempt().WithError(error)
  }

  function RetryTime(s: Settings, job: Job, now: Time): Time {
    now + RetryDelaySeconds(s, job.attempts + 1) * SECOND
  }

  function Retried(s: Settings, q: Queues, job: Job, error: string, now: Time): Queues {
    q.(processing := LRem(q.processing, ToJson(job)),
       delayed := q.delayed[ToJson(RetryCopy(job, error)) := RetryTime(s, job, now)])
  }

  function FailedCopy(job: Job, error: Option<string>, now: Time): Job {
    var stamped := job.WithFailedAt(now);
    if error.Some? then stamped.WithError(error.value)
    else if job.lastError.Some? then stamped.WithError(job.lastError.value)
    else stamped
  }

  function Failed(q: Queues, job: Job, error: Option<string>, now: Time): Queues {
    q.(processing := LRem(q.processing, ToJson(job)),
       failed := [ToJson(FailedCopy(job, error, now))] + q.failed)
  }

  /** How many of n entries a loop with an optional limit takes. */
  function Taken(n: nat, limit: Option<int>): (t: nat)
    ensures t <= n
  {
    if limit.None? || n <= limit.value then n else if limit.value <= 0 then 0 else limit.value
  }

  /** A reply of ZRANGEBYSCORE delayed 0 now: the due entries, each once, earliest score first. */
  ghost predicate DueOrder(delayed: map<Json, Time>, now: Time, due: seq<Json>) {
    && (forall entry :: entry in due <==> entry in delayed && 0 <= delayed[entry] <= now)
    && (forall i, j :: 0 <= i < j < |due| ==> due[i] != due[j] && delayed[due[i]] <= delayed[due[j]])
  }

  function Promoted(q: Queues, due: seq<Json>, limit: Option<int>): Queues {
    var moved := due[..Taken(|due|, limit)];
    q.(main := Reverse(moved) + q.main,
       delayed := Without(q.delayed, moved))
  }

  function Without(delayed: map<Json, Time>, gone: seq<Json>): map<Json, Time> {
    map entry | entry in delayed && entry !in gone :: delayed[entry]
  }

  predicate IsStale(s: Settings, job: Job, now: Time) {
    job.startedAt.None? || now - job.startedAt.value >= s.visibilityTimeout * SECOND
  }

  predicate StaleEntry(s: Settings, raw: Json, now: Time) {
    var parsed := FromJson(raw);
    parsed.Success? && IsStale(s, parsed.value, now)
  }

  function Stripped(raw: Json): Json {
    match FromJson(raw)
    case Success(job) => ToJson(job.WithoutProcessingStartedAt())
    case Failure(_) => raw
  }

  /** The entries that stay leased, in order. */
  function Fresh(s: Settings, entries: seq<Json>, now: Time): seq<Json> {
    if entries == [] then []
    else
      var last := entries[|entries| - 1];
      Fresh(s, entries[..|entries| - 1], now) + if StaleEntry(s, last, now) then [] else [last]
  }

  /** The stale entries without their lease stamp, last one first. */
  function Returned(s: Settings, entries: seq<Json>, now: Time): seq<Json> {
    if entries == [] then []
    else
      var last := entries[|entries| - 1];
      (if StaleEntry(s, last, now) then [Stripped(last)] else []) + Returned(s, entries[..|entries| - 1], now)
  }

  /** How many leading entries parse. */
  function ReadablePrefix(entries: seq<Json>): (k: nat)
    ensures k <= |entries|
    ensures forall i :: 0 <= i < k ==> FromJson(entries[i]).Success?
    ensures k < |entries| ==> FromJson(entries[k]).Failure?
  {
    if entries == [] || FromJson(entries[0]).Failure? then 0 else 1 + ReadablePrefix(entries[1..])
  }

  /** One lease back at the head of main without its stamp. */
  function LeaseReturned(q: Queues, raw: Json): Queues {
    q.(processing := LRem(q.processing, raw), main := [Stripped(raw)] + q.main)
  }

  /** The queues once the first k leases have been looked at. */
  function ReclaimedUpTo(s: Settings, q: Queues, now: Time, k: nat): Queues
    requires k <= |q.processing|
  {
    q.(main := Returned(s, q.processing[..k], now) + q.main,
       processing := Fresh(s, q.processing[..k], now) + q.processing[k..])
  }

  /** An entry that does not parse stops the scan; those before it have already been handled. */
  function Reclaimed(s: Settings, q: Queues, now: Time): Queues {
    ReclaimedUpTo(s, q, now, ReadablePrefix(q.processing))
  }

  /** How many trailing entries parse. */
  function ReadableSuffix(entries: seq<Json>): (k: nat)
    ensures k <= |entries|
    ensures forall i :: |entries| - k <= i < |entries| ==> FromJson(entries[i]).Success?
    ensures k < |entries| ==> FromJson(entries[|entries| - 1 - k]).Failure?
  {
    if entries == [] || FromJson(entries[|entries| - 1]).Failure? then 0
    else 1 + ReadableSuffix(entries[..|entries| - 1])
  }

  /** What reading an entry and writing it back leaves. */
  function Rewritten(raw: Json): Json {
    match FromJson(raw)
    case Success(job) => ToJson(job)
    case Failure(_) => raw
  }

  function RewrittenAll(entries: seq<Json>): (r: seq<Json>)
    ensures |r| == |entries|
    ensures forall i :: 0 <= i < |r| ==> r[i] == Rewritten(entries[i])
  {
    seq(|entries|, i requires 0 <= i < |entries| => Rewritten(entries[i]))
  }

  /** The queues once the last n failed entries are back in front of main, order kept. */
  function RequeuedTail(q: Queues, n: nat): Queues
    requires n <= |q.failed|
  {
    var m := |q.failed|;
    q.(main := RewrittenAll(q.failed[m - n..]) + q.main, failed := q.failed[..m - n])
  }

  /** The next failed entry to pop does not parse. */
  predicate Unreadable(q: Queues) {
    q.failed != [] && FromJson(q.failed[|q.failed| - 1]).Failure?
  }

  /** The oldest failed entry popped, and pushed onto main if it could be read. */
  function OldestRequeued(q: Queues): Queues {
    if q.failed == [] then q
    else
      var raw := q.failed[|q.failed| - 1];
      var popped := q.(failed := q.failed[..|q.failed| - 1]);
      if Unreadable(q) then popped else popped.(main := [Rewritten(raw)] + q.main)
  }

  /** The failed entry popped when reading stops is already gone from the failed list. */
  function Requeued(q: Queues, limit: Option<int>): Queues {
    var n := Taken(|q.failed|, limit);
    var k := ReadableSuffix(q.failed);
    if n <= k then RequeuedTail(q, n) else OldestRequeued(RequeuedTail(q, k))
  }

  // ---- the functions as Redis commands ----

  class RedisQueues {
    var main: seq<Json>
    var processing: seq<Json>
    var delayed: map<Json, Time>
    var failed: seq<Json>

    function View(): Queues
      reads this
    {
      Queues(main, processing, delayed, failed)
    }

    method EnqueueJob(id: string, kind: string, payload: Json, requestId: Option<string>) returns (job: Job)
      modifies this
      ensures job == Job(id, kind, payload, 0, requestId, None, None, None)
      ensures View() == Enqueued(old(View()), job)
    {
      job := Job(id, kind, payload, 0, requestId, None, None, None);
      main := [ToJson(job)] + main;  // LPUSH
    }

    method DequeueJob(now: Time) returns (result: Result<Option<Job>, string>)
      modifies this
      ensures (View(), result) == Leased(old(View()), now)
      ensures result.Success? && result.value.Some? ==>
                && old(main) != [] && FromJson(old(main)[|old(main)| - 1]).Success?
                && result.value.value == LeaseAt(FromJson(old(main)[|old(main)| - 1]).value, now)
                && processing == [ToJson(result.value.value)] + old(processing)
    {
      if main == [] {
        return Success(None);
      }
      var raw := main[|main| - 1];
      main, processing := main[..|main| - 1], [raw] + processing;  // BRPOPLPUSH
      match FromJson(raw) {
        case Failure(error) =>
          result := Failure(error);
        case Success(job) =>
          var lease := job.WithProcessingStartedAt(now);
          if ToJson(lease) != raw {
            processing := LRem(processing, raw);
            processing := [ToJson(lease)] + processing;
          }
          result := Success(Some(lease));
      }
    }

    method AckJob(job: Job)
      modifies this
      ensures View() == Acked(old(View()), job)
    {
      processing := LRem(processing, ToJson(job));
    }

    method ScheduleRetry(s: Settings, job: Job, error: string, now: Time) returns (retried: Job)
      modifies this
      ensures retried == RetryCopy(job, error)
      ensures View() == Retried(s, old(View()), job, error, now)
      ensures retried == NextTry(job, error) && FromJson(ToJson(retried)) == Success(NextTry(job, error))
      ensures s.Valid() ==> delayed == old(delayed)[ToJson(retried) := now + Doubling(s, job.attempts + 1) * SECOND]
    {
      hide FromJson, ToJson;
      CopiesWritten(job, Some(error), now);
      RoundTrip(NextTry(job, error));
      RetryTimeIsDoubling(s, job, now);
      retried := job.WithNextAttempt().WithError(error);
      var availableAt := now + RetryDelaySeconds(s, retried.attempts) * SECOND;
      processing := LRem(processing, ToJson(job));
      delayed := delayed[ToJson(retried) := availableAt];  // ZADD
    }

    method MoveJobToFailedQueue(job: Job, error: Option<string>, now: Time) returns (failedJob: Job)
      modifies this
      ensures failedJob == FailedCopy(job, error, now)
      ensures View() == Failed(old(View()), job, error, now)
      ensures failedJob == DeadCopy(job, error, now) && FromJson(ToJson(failedJob)) == Success(DeadCopy(job, error, now))
    {
      hide FromJson, ToJson;
      CopiesWritten(job, error, now);
      RoundTrip(DeadCopy(job, error, now));
      failedJob := job.WithFailedAt(now);
      if error.Some? {
        failedJob := failedJob.WithError(error.value);
      } else if job.lastError.Some? {
        failedJob := failedJob.WithError(job.lastError.value);
      }
      processing := LRem(processing, ToJson(job));
      failed := [ToJson(failedJob)] + failed;
    }

    /** ZRANGEBYSCORE delayed 0 now, as selection of the earliest remaining entry. */
    method DueEntries(now: Time) returns (due: seq<Json>)
      ensures DueOrder(delayed, now, due)
    {
      due := [];
      var rest := set entry | entry in delayed && 0 <= delayed[entry] <= now;
      while rest != {}
        invariant forall entry :: entry in rest ==> entry in delayed && 0 <= delayed[entry] <= now
        invariant forall entry :: entry in due ==> entry in delayed && 0 <= delayed[entry] <= now && entry !in rest
        invariant forall entry :: entry in delayed && 0 <= delayed[entry] <= now ==> entry in due || entry in rest
        invariant forall i, j :: 0 <= i < j < |due| ==> due[i] != due[j] && delayed[due[i]] <= delayed[due[j]]
        invariant forall a, b :: a in due && b in rest ==> delayed[a] <= delayed[b]
      {
        var next := Earliest(rest);
        due := due + [next];
        rest := rest - {next};
      }
    }

    method Earliest(candidates: set<Json>) returns (first: Json)
      requires candidates != {}
      requires forall entry :: entry in candidates ==> entry in delayed
      ensures first in candidates
      ensures forall entry :: entry in candidates ==> delayed[first] <= delayed[entry]
    {
      first :| first in candidates;
      var rest := candidates - {first};
      while rest != {}
        invariant first in candidates && rest <= candidates
        invariant forall entry :: entry in candidates && entry !in rest ==> delayed[first] <= delayed[entry]
      {
        var entry :| entry in rest;
        if delayed[entry] < delayed[first] {
          first := entry;
        }
        rest := rest - {entry};
      }
    }

    method PromoteDelayedJobs(now: Time, limit: Option<int>) returns (promoted: nat, ghost due: seq<Json>)
      modifies this
      ensures DueOrder(old(delayed), now, due)
      ensures View() == Promoted(old(View()), due, limit)
      ensures promoted == Taken(|due|, limit)
    {
      hide Promoted, DueOrder;
      ghost var before := View();
      var entries := DueEntries(now);
      due := entries;
      PromotedNone(before, due);
      promoted := 0;
      var i := 0;
      while i < |entries|
        invariant 0 <= i == promoted <= Taken(|entries|, limit)
        invariant View() == Promoted(before, entries, Some(i))
      {
        if limit.Some? && promoted >= limit.value {
          break;
        }
        PromotedOneMore(before, now, entries, i);
        var raw := entries[i];
        if raw in delayed {  // ZREM returned 1
          delayed := map entry | entry in delayed && entry != raw :: delayed[entry];
          main := [raw] + main;
          promoted := promoted + 1;
        }
        i := i + 1;
      }
      SameLimit(before, due, limit, promoted);
    }

    /** LREM processing 1 raw, and when it removed something LPUSH main with the lease stamp gone. */
    method ReturnLease(raw: Json, job: Job) returns (removed: bool)
      requires FromJson(raw) == Success(job)
      modifies this
      ensures removed <==> raw in old(processing)
      ensures View() == if removed then LeaseReturned(old(View()), raw) else old(View())
      ensures removed ==> main == [ToJson(Unleased(job))] + old(main)
    {
      removed := raw in processing;
      if removed {
        processing := LRem(processing, raw);
        main := [ToJson(job.WithoutProcessingStartedAt())] + main;
      }
    }

    method ReclaimStaleProcessingJobs(s: Settings, now: Time) returns (result: Result<nat, string>)
      modifies this
      ensures View() == Reclaimed(s, old(View()), now)
      ensures result.Success? <==> ReadablePrefix(old(processing)) == |old(processing)|
      ensures result.Success? ==> result.value == |Returned(s, old(processing), now)|
      ensures result.Success? ==> forall raw :: raw in processing <==> raw in old(processing) && !LeaseOver(s, raw, now)
      ensures result.Success? ==> result.value <= |main| && main[result.value..] == old(main)
      ensures result.Success? ==> forall k :: 0 <= k < result.value ==> WasOver(s, old(processing), now, main[k])
      ensures result.Success? ==> forall raw :: raw in old(processing) && LeaseOver(s, raw, now) ==>
                ToJson(Unleased(FromJson(raw).value)) in main[..result.value]
    {
      hide FromJson, ToJson, Fresh, Returned, LRem, ReclaimedUpTo, ReadablePrefix, LeaseReturned, LeaseOver;
      var entries := processing;  // LRANGE 0 -1
      ReclaimedWhole(s, View(), now);
      ghost var before := View();
      ReclaimStart(s, before, now);
      var reclaimed := 0;
      for i := 0 to |entries|
        invariant i <= ReadablePrefix(entries)
        invariant View() == ReclaimedUpTo(s, before, now, i)
        invariant reclaimed == |Returned(s, entries[..i], now)|
      {
        var raw := entries[i];
        var parsed := FromJson(raw);
        if parsed.Failure? {
          return Failure(parsed.error);
        }
        ReclaimStep(s, before, now, i);
        if IsStale(s, parsed.value, now) {
          var removed := ReturnLease(raw, parsed.value);
          if removed {
            reclaimed := reclaimed + 1;
          }
        }
      }
      assert entries[..|entries|] == entries;
      result := Success(reclaimed);
    }

    /** RPOP failed, then LPUSH main with the entry read and written back; `Success(false)` when nothing was left. */
    method RequeueOldest() returns (result: Result<bool, string>)
      modifies this
      ensures View() == OldestRequeued(old(View()))
      ensures result.Failure? <==> Unreadable(old(View()))
      ensures result == Success(false) <==> old(failed) == []
      ensures old(failed) == [] ==> View() == old(View())
    {
      if failed == [] {
        return Success(false);
      }
      var raw := failed[|failed| - 1];
      failed := failed[..|failed| - 1];
      match FromJson(raw) {
        case Failure(error) =>
          result := Failure(error);
        case Success(job) =>
          main := [ToJson(job)] + main;
          result := Success(true);
      }
    }

    method RequeueFailedJobs(limit: Option<int>) returns (result: Result<nat, string>)
      modifies this
      ensures View() == Requeued(old(View()), limit)
      ensures result.Success? <==> Taken(|old(failed)|, limit) <= ReadableSuffix(old(failed))
      ensures result.Success? ==> result.value == Taken(|old(failed)|, limit)
    {
      hide FromJson, RequeuedTail, OldestRequeued, ReadableSuffix;
      ghost var before := View();
      RequeueStart(before);
      var requeued := 0;
      while limit.None? || requeued < limit.value
        invariant 0 <= requeued <= Taken(|before.failed|, limit)
        invariant requeued <= ReadableSuffix(before.failed)
        invariant View() == RequeuedTail(before, requeued)
        decreases |before.failed| - requeued
      {
        RequeueStep(before, requeued);
        var step := RequeueOldest();
        if step.Failure? {
          return Failure(step.error);
        }
        if !step.value {
          break;
        }
        requeued := requeued + 1;
      }
      result := Success(requeued);
    }
  }

  // ---- first in, first out ----

  function EnqueuedAll(q: Queues, jobs: seq<Job>): Queues
    decreases |jobs|
  {
    if jobs == [] then q else EnqueuedAll(Enqueued(q, jobs[0]), jobs[1..])
  }

  lemma {:induction false} EnqueuedInFront(q: Queues, jobs: seq<Job>)
    ensures EnqueuedAll(q, jobs) == q.(main := EnqueuedAll(q.(main := []), jobs).main + q.main)
    decreases |jobs|
  {
    hide ToJson;
    if jobs != [] {
      var first := [ToJson(jobs[0])];
      EnqueuedInFront(Enqueued(q, jobs[0]), jobs[1..]);
      EnqueuedInFront(Enqueued(q.(main := []), jobs[0]), jobs[1..]);
      assert first + [] == first;
      var later := EnqueuedAll(q.(main := []), jobs[1..]).main;
      assert later + (first + q.main) == (later + first) + q.main;
    }
  }

  /** Jobs are leased in the order they were enqueued: the next lease is the oldest job, and the others stay as they are. */
  lemma FirstInFirstOut(q: Queues, oldest: Job, others: seq<Job>, now: Time)
    requires q.main == []
    ensures var (leased, result) := Leased(EnqueuedAll(q, [oldest] + others), now);
            && result == Success(Some(oldest.WithProcessingStartedAt(now)))
            && leased == EnqueuedAll(q, others).(processing := [ToJson(oldest.WithProcessingStartedAt(now))] + q.processing)
  {
    hide ToJson, FromJson;
    var q' := Enqueued(q, oldest);
    assert ([oldest] + others)[1..] == others;
    EnqueuedInFront(q', others);
    EnqueuedInFront(q, others);
    assert [ToJson(oldest)] + q.main == [ToJson(oldest)];
    assert EnqueuedAll(q, others).main + [] == EnqueuedAll(q, others).main;
    RoundTrip(oldest);
  }

  // ---- leases and retries, field by field ----

  lemma RetryTimeIsDoubling(s: Settings, job: Job, now: Time)
    ensures s.Valid() ==> RetryTime(s, job, now) == now + Doubling(s, job.attempts + 1) * SECOND
  {
    if s.Valid() {
      DelayIsDoubling(s, job.attempts + 1);
    }
  }

  lemma CopiesWritten(job: Job, error: Option<string>, now: Time)
    ensures error.Some? ==> RetryCopy(job, error.value) == NextTry(job, error.value)
    ensures FailedCopy(job, error, now) == DeadCopy(job, error, now)
  {
    if error.Some? {
      ShortIsTruncated(error.value);
    } else if job.lastError.Some? {
      ShortIsTruncated(job.lastError.value);
    }
  }

  lemma ShortIsTruncated(message: string)
    ensures Short(message) == Truncate(message)
  {
  }

  /** Some lease that was over reads as this entry, but for its stamp. */
  ghost predicate WasOver(s: Settings, leases: seq<Json>, now: Time, entry: Json) {
    exists raw :: raw in leases && LeaseOver(s, raw, now) && FromJson(entry) == Success(Unleased(FromJson(raw).value))
  }

  lemma StaleIsOver(s: Settings, raw: Json, now: Time)
    ensures StaleEntry(s, raw, now) <==> LeaseOver(s, raw, now)
    ensures LeaseOver(s, raw, now) ==> FromJson(Stripped(raw)) == Success(Unleased(FromJson(raw).value))
  {
    hide FromJson, ToJson;
    if FromJson(raw).Success? {
      RoundTrip(Unleased(FromJson(raw).value));
    }
  }

  lemma {:induction false} ReturnedWereOver(s: Settings, entries: seq<Json>, now: Time)
    ensures forall k :: 0 <= k < |Returned(s, entries, now)| ==> WasOver(s, entries, now, Returned(s, entries, now)[k])
  {
    hide FromJson, ToJson, StaleEntry, LeaseOver, Stripped;
    if entries != [] {
      var n := |entries| - 1;
      ReturnedWereOver(s, entries[..n], now);
      StaleIsOver(s, entries[n], now);
      assert forall raw :: raw in entries[..n] ==> raw in entries;
      var later := Returned(s, entries[..n], now);
      forall k | 0 <= k < |Returned(s, entries, now)|
        ensures WasOver(s, entries, now, Returned(s, entries, now)[k])
      {
        var at := if StaleEntry(s, entries[n], now) then k - 1 else k;
        if at >= 0 {
          assert Returned(s, entries, now)[k] == later[at] && WasOver(s, entries[..n], now, later[at]);
        } else {
          assert Returned(s, entries, now)[k] == Stripped(entries[n]);
        }
      }
    }
  }

  lemma {:induction false} OverAreReturned(s: Settings, entries: seq<Json>, now: Time, raw: Json)
    requires raw in entries && LeaseOver(s, raw, now)
    ensures ToJson(Unleased(FromJson(raw).value)) in Returned(s, entries, now)
  {
    hide FromJson, ToJson, StaleEntry, LeaseOver;
    var n := |entries| - 1;
    StaleIsOver(s, raw, now);
    assert entries == entries[..n] + [entries[n]];
    if raw == entries[n] {
      OverIsStripped(s, raw, now);
    } else {
      OverAreReturned(s, entries[..n], now, raw);
    }
  }

  lemma OverIsStripped(s: Settings, raw: Json, now: Time)
    requires LeaseOver(s, raw, now)
    ensures Stripped(raw) == ToJson(Unleased(FromJson(raw).value))
  {
    hide FromJson, ToJson;
  }

  /** With every lease readable: the leases kept are those not over, and those returned come in front of main without their stamp. */
  lemma ReclaimedWhole(s: Settings, q: Queues, now: Time)
    ensures ReadablePrefix(q.processing) == |q.processing| ==>
              var q', n := Reclaimed(s, q, now), |Returned(s, q.processing, now)|;
              && (forall raw :: raw in q'.processing <==> raw in q.processing && !LeaseOver(s, raw, now))
              && n <= |q'.main| && q'.main[n..] == q.main
              && (forall raw :: raw in q.processing && LeaseOver(s, raw, now) ==> ToJson(Unleased(FromJson(raw).value)) in q'.main[..n])
              && forall k :: 0 <= k < n ==> WasOver(s, q.processing, now, q'.main[k])
  {
    hide FromJson, ToJson, StaleEntry, LeaseOver, Stripped, ReadablePrefix, Returned, Fresh, WasOver;
    var m := |q.processing|;
    if ReadablePrefix(q.processing) == m {
      assert q.processing[..m] == q.processing && Fresh(s, q.processing, now) + q.processing[m..] == Fresh(s, q.processing, now);
      ReturnedWereOver(s, q.processing, now);
      assert Reclaimed(s, q, now).main[..|Returned(s, q.processing, now)|] == Returned(s, q.processing, now);
      forall raw | raw in q.processing && LeaseOver(s, raw, now)
        ensures ToJson(Unleased(FromJson(raw).value)) in Returned(s, q.processing, now)
      {
        OverAreReturned(s, q.processing, now, raw);
      }
      forall raw
        ensures raw in Fresh(s, q.processing, now) <==> raw in q.processing && !LeaseOver(s, raw, now)
      {
        FreshKeepsNoStale(s, q.processing, now, raw);
        StaleIsOver(s, raw, now);
      }
    }
  }

  // ---- one iteration of the bulk loops ----

  lemma ReclaimStart(s: Settings, q: Queues, now: Time)
    ensures ReclaimedUpTo(s, q, now, 0) == q && Returned(s, q.processing[..0], now) == []
  {
    assert Returned(s, [], now) + q.main == q.main;
    assert Fresh(s, [], now) + q.processing[0..] == q.processing;
  }

  /** A stale lease is still in the list when its turn comes, and removing the first equal entry removes that one. */
  lemma ReclaimStep(s: Settings, q: Queues, now: Time, i: nat)
    requires i < |q.processing|
    ensures var (raw, at) := (q.processing[i], ReclaimedUpTo(s, q, now, i));
            && raw in at.processing
            && ReclaimedUpTo(s, q, now, i + 1) == (if StaleEntry(s, raw, now) then LeaseReturned(at, raw) else at)
            && Returned(s, q.processing[..i + 1], now) ==
               (if StaleEntry(s, raw, now) then [Stripped(raw)] else []) + Returned(s, q.processing[..i], now)
  {
    hide FromJson, ToJson, LRem;
    var entries := q.processing;
    var raw := entries[i];
    var kept, later := Fresh(s, entries[..i], now), entries[i + 1..];
    assert entries[..i + 1][..i] == entries[..i];
    assert entries[i..] == [raw] + later;
    assert raw in [raw] + later;
    if StaleEntry(s, raw, now) {
      FreshKeepsNoStale(s, entries[..i], now, raw);
      LRemPastOthers(kept, raw, later);
      assert ([Stripped(raw)] + Returned(s, entries[..i], now)) + q.main
          == [Stripped(raw)] + (Returned(s, entries[..i], now) + q.main);
    } else {
      assert (kept + [raw]) + later == kept + ([raw] + later);
    }
  }

  lemma RequeueStart(q: Queues)
    ensures RequeuedTail(q, 0) == q
  {
    assert RewrittenAll(q.failed[|q.failed|..]) + q.main == q.main;
  }

  /** After n entries have moved: the next pop is the entry n places from the tail, if there is one. */
  lemma RequeueStep(q: Queues, n: nat)
    requires n <= ReadableSuffix(q.failed)
    ensures var at := RequeuedTail(q, n);
            && |at.failed| == |q.failed| - n
            && (n < ReadableSuffix(q.failed) ==>
                  !Unreadable(at) && RequeuedTail(q, n + 1) == OldestRequeued(at))
            && (n == ReadableSuffix(q.failed) < |q.failed| ==> Unreadable(at))
  {
    hide FromJson, ToJson;
    if n < |q.failed| {
      var i := |q.failed| - 1 - n;
      var at := RequeuedTail(q, n);
      assert at.failed[|at.failed| - 1] == q.failed[i];
      assert at.failed[..|at.failed| - 1] == q.failed[..i];
      PushRewritten(q.failed, i, q.main);
      assert RequeuedTail(q, n + 1).main == [Rewritten(q.failed[i])] + at.main;
    }
  }

  lemma PushRewritten(entries: seq<Json>, i: nat, main: seq<Json>)
    requires i < |entries|
    ensures RewrittenAll(entries[i..]) + main == [Rewritten(entries[i])] + (RewrittenAll(entries[i + 1..]) + main)
  {
    assert RewrittenAll(entries[i..]) == [Rewritten(entries[i])] + RewrittenAll(entries[i + 1..]);
  }

  lemma PromotedNone(q: Queues, due: seq<Json>)
    ensures Promoted(q, due, Some(0)) == q
  {
    assert due[..0] == [] && Reverse([]) + q.main == q.main;
  }

  /** One more due entry leaves the delayed set for the head of main. */
  lemma PromotedOneMore(q: Queues, now: Time, due: seq<Json>, k: nat)
    requires DueOrder(q.delayed, now, due) && k < |due|
    ensures var at := Promoted(q, due, Some(k));
            && due[k] in at.delayed
            && Promoted(q, due, Some(k + 1)) == at.(main := [due[k]] + at.main,
                                                    delayed := map entry | entry in at.delayed && entry != due[k] :: at.delayed[entry])
  {
    hide Reverse, Without;
    assert due[..k + 1] == due[..k] + [due[k]];
    ReverseSnoc(due[..k], due[k]);
    assert [due[k]] + Reverse(due[..k]) + q.main == [due[k]] + (Reverse(due[..k]) + q.main);
    OneMoreGone(q.delayed, due[..k], due[k]);
    NextIsThere(q.delayed, now, due, k);
  }

  lemma SameLimit(q: Queues, due: seq<Json>, limit: Option<int>, k: nat)
    requires k == Taken(|due|, limit)
    ensures Promoted(q, due, Some(k)) == Promoted(q, due, limit)
  {
    hide Reverse, Without;
  }

  lemma OneMoreGone(delayed: map<Json, Time>, gone: seq<Json>, raw: Json)
    ensures var at := Without(delayed, gone);
            Without(delayed, gone + [raw]) == map entry | entry in at && entry != raw :: at[entry]
  {
  }

  lemma NextIsThere(delayed: map<Json, Time>, now: Time, due: seq<Json>, i: nat)
    requires DueOrder(delayed, now, due) && i < |due|
    ensures due[i] in Without(delayed, due[..i])
  {
    assert due[i] in due;
  }

  // ---- list facts ----

  lemma {:induction false} ReverseSnoc(list: seq<Json>, last: Json)
    ensures Reverse(list + [last]) == [last] + Reverse(list)
  {
    if list == [] {
      assert list + [last] == [last];
    } else {
      assert (list + [last])[1..] == list[1..] + [last];
      ReverseSnoc(list[1..], last);
    }
  }

  lemma {:induction false} LRemPastOthers(front: seq<Json>, value: Json, back: seq<Json>)
    requires value !in front
    ensures LRem(front + ([value] + back), value) == front + back
  {
    if front == [] {
      assert front + ([value] + back) == [value] + back;
      assert front + back == back;
    } else {
      assert (front + ([value] + back))[1..] == front[1..] + ([value] + back);
      LRemPastOthers(front[1..], value, back);
    }
  }

  lemma {:induction false} FreshKeepsNoStale(s: Settings, entries: seq<Json>, now: Time, raw: Json)
    ensures raw in Fresh(s, entries, now) <==> raw in entries && !StaleEntry(s, raw, now)
  {
    if entries != [] {
      FreshKeepsNoStale(s, entries[..|entries| - 1], now, raw);
      assert entries == entries[..|entries| - 1] + [entries[|entries| - 1]];
    }
  }
}

/** The worker: dispatch of one job, what its outcome does to the queues, and queue maintenance. */
module Worker {
  import opened Clock
  import opened Wrappers
  import opened Jobs
  import opened Backoff
  import opened JobQueue

  const SEND_PASSWORD_RESET_EMAIL := "send_password_reset_email"
  const VERIFY_PRESIGNED_UPLOAD := "verify_presigned_upload"

  /** How a handler ends; `UnknownType` is raised by the dispatch itself. */
  datatype Outcome = Completed | UnknownType(message: string) | Raised(message: string)

  /** What the registered handler does with the payload member it needs is up to the caller. */
  datatype HandlerRun = Returns | Raises(message: string)

  function PayloadMember(job: Job, key: string): Option<Json> {
    if job.payload.Object? then Get(job.payload.members, key) else None
  }

  function HandleJob(job: Job, run: HandlerRun): Outcome {
    var required :=
      if job.kind == SEND_PASSWORD_RESET_EMAIL then Some("user_id")
      else if job.kind == VERIFY_PRESIGNED_UPLOAD then Some("uploaded_file_id")
      else None;
    if required.None? then UnknownType("unknown job type: " + job.kind)
    else if PayloadMember(job, required.value).None? then Raised("'" + required.value + "'")
    else if run.Returns? then Completed
    else Raised(run.message)
  }

  // ---- which jobs are done, without the dispatch ----

  ghost predicate HasMember(payload: Json, key: string) {
    payload.Object? && exists i :: 0 <= i < |payload.members| && payload.members[i].0 == key
  }

  ghost predicate KnownKind(job: Job) {
    job.kind == "send_password_reset_email" || job.kind == "verify_presigned_upload"
  }

  ghost predicate HasWhatItNeeds(job: Job) {
    || (job.kind == "send_password_reset_email" && HasMember(job.payload, "user_id"))
    || (job.kind == "verify_presigned_upload" && HasMember(job.payload, "uploaded_file_id"))
  }

  /** The handler of a known job with the member it needs has returned. */
  ghost predicate Done(job: Job, run: HandlerRun) {
    run.Returns? && HasWhatItNeeds(job)
  }

  /** What the exception says when the job is not done. */
  ghost function ErrorText(job: Job, run: HandlerRun): string {
    if !KnownKind(job) then "unknown job type: " + job.kind
    else if !HasWhatItNeeds(job) then if job.kind == "verify_presigned_upload" then "'uploaded_file_id'" else "'user_id'"
    else if run.Raises? then run.message
    else ""
  }

  /**
   The lease is settled: acknowledged if the job is done, else delayed for its next attempt while its kind is known and
   tries are left, else dead-lettered. Nothing else is added.
   */
  ghost predicate SettledRight(s: Settings, before: Queues, after: Queues, lease: Job, run: HandlerRun, now: Time) {
    var error := ErrorText(lease, run);
    if Done(lease, run) then after.delayed == before.delayed && after.failed == before.failed
    else if KnownKind(lease) && lease.attempts < s.maxRetries then
      && after.failed == before.failed
      && after.delayed == before.delayed[ToJson(NextTry(lease, error)) := now + Doubling(s, lease.attempts + 1) * SECOND]
    else
      after.delayed == before.delayed && after.failed == [ToJson(DeadCopy(lease, Some(error), now))] + before.failed
  }

  lemma {:induction false} GetIsMember(members: seq<(string, Json)>, key: string)
    ensures Get(members, key).Some? <==> exists i :: 0 <= i < |members| && members[i].0 == key
  {
    if members != [] {
      var n := |members| - 1;
      GetIsMember(members[..n], key);
      if i :| 0 <= i < n && members[i].0 == key {
        assert members[..n][i].0 == key;
      }
      if i :| 0 <= i < n && members[..n][i].0 == key {
        assert members[i].0 == key;
      }
    }
  }

  /** A job is completed exactly when it is done; otherwise an unknown kind is told from every other failure. */
  lemma CompletedIff(job: Job, run: HandlerRun)
    ensures HandleJob(job, run).Completed? <==> Done(job, run)
    ensures HandleJob(job, run).UnknownType? <==> !KnownKind(job)
    ensures !HandleJob(job, run).Completed? ==> HandleJob(job, run).message == ErrorText(job, run)
  {
    hide Get;
    if job.payload.Object? {
      GetIsMember(job.payload.members, "user_id");
      GetIsMember(job.payload.members, "uploaded_file_id");
    }
  }

  /** Ack, retry with backoff, or dead-letter. */
  function Settled(s: Settings, q: Queues, job: Job, outcome: Outcome, now: Time): Queues {
    match outcome
    case Completed => Acked(q, job)
    case UnknownType(message) => Failed(q, job, Some(message), now)
    case Raised(message) =>
      if job.attempts < s.maxRetries then Retried(s, q, job, message, now)
      else Failed(q, job, Some(message), now)
  }

  lemma SettledIsRight(s: Settings, q: Queues, job: Job, run: HandlerRun, now: Time)
    ensures s.Valid() ==> SettledRight(s, q, Settled(s, q, job, HandleJob(job, run), now), job, run, now)
    ensures Settled(s, q, job, HandleJob(job, run), now).processing == LRem(q.processing, ToJson(job))
    ensures Settled(s, q, job, HandleJob(job, run), now).main == q.main
  {
    CompletedIff(job, run);
    hide HandleJob, Done, ErrorText, KnownKind, ToJson, LRem, RetryCopy, FailedCopy, NextTry, DeadCopy;
    CopiesWritten(job, Some(ErrorText(job, run)), now);
    RetryTimeIsDoubling(s, job, now);
  }

  /** Dequeue at one time, settle at a later one; an unreadable entry raises out of the worker. */
  function Processed(s: Settings, q: Queues, leasedAt: Time, settledAt: Time, run: HandlerRun): (Queues, Result<bool, string>) {
    var (leased, result) := Leased(q, leasedAt);
    match result
    case Failure(error) => (leased, Failure(error))
    case Success(None) => (leased, Success(false))
    case Success(Some(job)) => (Settled(s, leased, job, HandleJob(job, run), settledAt), Success(true))
  }

  lemma ProcessedRight(s: Settings, q: Queues, leasedAt: Time, settledAt: Time, run: HandlerRun)
    ensures var (q', result) := Processed(s, q, leasedAt, settledAt, run);
            && (q.main == [] <==> result == Success(false))
            && (result.Success? && result.value ==>
                  var oldest := q.main[|q.main| - 1];
                  && q'.main == q.main[..|q.main| - 1] && q'.processing == q.processing && FromJson(oldest).Success?
                  && (s.Valid() ==> SettledRight(s, q, q', LeaseAt(FromJson(oldest).value, leasedAt), run, settledAt)))
  {
    hide FromJson, ToJson, HandleJob, Settled;
    if q.main != [] && FromJson(q.main[|q.main| - 1]).Success? {
      var lease := LeaseAt(FromJson(q.main[|q.main| - 1]).value, leasedAt);
      var leased := q.(main := q.main[..|q.main| - 1], processing := [ToJson(lease)] + q.processing);
      assert Leased(q, leasedAt) == (leased, Success(Some(lease)));
      SettledIsRight(s, leased, lease, run, settledAt);
      assert ([ToJson(lease)] + q.processing)[1..] == q.processing;
    }
  }

  class WorkerProcess {
    const settings: Settings
    const queues: RedisQueues
    const maintenanceInterval: Time
    const promoteBatch: int
    var lastQueueMaintenanceAt: Time

    constructor (settings: Settings, queues: RedisQueues, maintenanceInterval: Time, promoteBatch: int)
      ensures this.settings == settings && this.queues == queues && lastQueueMaintenanceAt == 0
      ensures this.maintenanceInterval == maintenanceInterval && this.promoteBatch == promoteBatch
    {
      this.settings := settings;
      this.queues := queues;
      this.maintenanceInterval := maintenanceInterval;
      this.promoteBatch := promoteBatch;
      lastQueueMaintenanceAt := 0;
    }

    method ProcessNextJob(leasedAt: Time, settledAt: Time, run: HandlerRun) returns (result: Result<bool, string>)
      modifies queues
      ensures (queues.View(), result) == Processed(settings, old(queues.View()), leasedAt, settledAt, run)
      ensures old(queues.main) == [] <==> result == Success(false)
      ensures result.Success? && result.value ==>
                var oldest := old(queues.main)[|old(queues.main)| - 1];
                && queues.main == old(queues.main)[..|old(queues.main)| - 1] && queues.processing == old(queues.processing)
                && FromJson(oldest).Success?
                && (settings.Valid() ==>
                      SettledRight(settings, old(queues.View()), queues.View(), LeaseAt(FromJson(oldest).value, leasedAt), run, settledAt))
    {
      hide Acked, Retried, Failed, FromJson, ToJson, HandleJob, SettledRight;
      ProcessedRight(settings, queues.View(), leasedAt, settledAt, run);
      var dequeued := queues.DequeueJob(leasedAt);
      if dequeued.Failure? {
        return Failure(dequeued.error);
      }
      if dequeued.value.None? {
        return Success(false);
      }
      var job := dequeued.value.value;
      match HandleJob(job, run) {
        case UnknownType(message) =>
          var _ := queues.MoveJobToFailedQueue(job, Some(message), settledAt);
        case Raised(message) =>
          if job.attempts < settings.maxRetries {
            var _ := queues.ScheduleRetry(settings, job, message, settledAt);
          } else {
            var _ := queues.MoveJobToFailedQueue(job, Some(message), settledAt);
          }
        case Completed =>
          queues.AckJob(job);
      }
      result := Success(true);
    }

    /** Reclaim, then promote a batch, at most once per interval; an unreadable lease stops it before promotion. */
    method MaybeRunQueueMaintenance(monotonic: Time, now: Time) returns (result: Result<bool, string>, ghost due: seq<Json>)
      modifies this, queues
      ensures monotonic - old(lastQueueMaintenanceAt) < maintenanceInterval ==>
                result == Success(false) && lastQueueMaintenanceAt == old(lastQueueMaintenanceAt)
                && queues.View() == old(queues.View())
      ensures monotonic - old(lastQueueMaintenanceAt) >= maintenanceInterval ==>
                var reclaimed := Reclaimed(settings, old(queues.View()), now);
                && lastQueueMaintenanceAt == monotonic
                && (result.Failure? <==> ReadablePrefix(old(queues.processing)) < |old(queues.processing)|)
                && (result.Failure? ==> queues.View() == reclaimed)
                && (result.Success? ==> result == Success(true) && DueOrder(reclaimed.delayed, now, due)
                                        && queues.View() == Promoted(reclaimed, due, Some(promoteBatch)))
    {
      hide FromJson, ToJson, ReadablePrefix, Returned;
      due := [];
      if monotonic - lastQueueMaintenanceAt < maintenanceInterval {
        return Success(false), due;
      }
      lastQueueMaintenanceAt := monotonic;
      var reclaimed := queues.ReclaimStaleProcessingJobs(settings, now);
      if reclaimed.Failure? {
        return Failure(reclaimed.error), due;
      }
      var promoted;
      promoted, due := queues.PromoteDelayedJobs(now, Some(promoteBatch));
      result := Success(true);
    }
  }
}

/** What holds over whole runs of the queue: exclusive leases, retry timing, draining, fencing. */
module LeaseTheorems {
  import opened Clock
  import opened UnusedKeys
  import opened Wrappers
  import opened Jobs
  import opened Backoff
  import opened JobQueue
  import opened Worker
  import opened QueueWeights
  import opened Leases

  // ---- exclusive leases ----

  /**
   In every reachable state each enqueued id is in exactly one place, an entry of one of the four
   structures or one acknowledgement; and no two live workers hold the same job.
   */
  lemma ExclusiveLeases(s: Settings, first: State, steps: seq<Step>, last: State)
    requires s.Valid() && Init(first) && Run(s, first, steps, last)
    ensures forall id :: Count(id, last.q) + last.acked[id] == if id in last.ids then 1 else 0
    ensures forall id :: 0 <= Count(id, last.q) <= 1
    ensures forall v, w :: v in last.live && w in last.live && v != w ==> last.live[v].id != last.live[w].id
    ensures forall w :: w in last.live ==> ToJson(last.live[w]) in last.q.processing
  {
    hide IdOf, ToJson, FromJson, Count;
    InvInit(s, first);
    InvRun(s, first, steps, last);
    forall id
      ensures 0 <= Count(id, last.q) <= 1
    {
      CountNonNegative(id, last.q);
      assert Count(id, last.q) + last.acked[id] == if id in last.ids then 1 else 0;
    }
  }

  // ---- acknowledgements ----

  /** How often a handler of the id has done its job in a run. */
  ghost function DoneHandlers(s: Settings, first: State, steps: seq<Step>, id: string): nat
    decreases |steps|
  {
    if steps == [] || !Enabled(s, first, steps[0]) then 0
    else
      (if steps[0].Settle? && first.live[steps[0].worker].id == id && Done(first.live[steps[0].worker], steps[0].run) then 1 else 0)
      + DoneHandlers(s, Do(s, first, steps[0]), steps[1..], id)
  }

  lemma AcknowledgedStep(s: Settings, st: State, step: Step, id: string)
    requires s.Valid() && Enabled(s, st, step)
    ensures Do(s, st, step).acked[id] == st.acked[id] + DoneHandlers(s, st, [step], id)
  {
    hide Done, HandleJob, SettledRight, Settled, Leased, Promoted, Reclaimed, Requeued, Enqueued;
    assert [step][1..] == [];
    if step.Settle? {
      AcknowledgedIff(s, st, step.worker, step.run);
    }
  }

  /** Over every run an id is acknowledged once for each handler of it that did its job, and for nothing else. */
  lemma {:induction false} AcknowledgedByHandlers(s: Settings, first: State, steps: seq<Step>, last: State, id: string)
    requires s.Valid() && Run(s, first, steps, last)
    ensures last.acked[id] == first.acked[id] + DoneHandlers(s, first, steps, id)
    decreases |steps|
  {
    hide Do, Enabled, Done;
    if steps != [] {
      AcknowledgedStep(s, first, steps[0], id);
      assert [steps[0]][1..] == [];
      AcknowledgedByHandlers(s, Do(s, first, steps[0]), steps[1..], last, id);
    }
  }

  /**
   The job of a worker that died comes back: once its timeout has passed, and that of no running handler, a reclaimer
   puts it into main without its stamp, every other field kept.
   */
  lemma DeadWorkersJobReturns(s: Settings, st: State, worker: nat, at: Time) returns (last: State)
    requires s.Valid() && Inv(s, st) && worker in st.live && st.now <= at
    requires LeaseOver(s, ToJson(st.live[worker]), at)
    requires forall w :: w in st.live && w != worker ==> !IsStale(s, st.live[w], at)
    ensures Run(s, st, [Die(worker), Tick(at), Reclaim], last)
    ensures ToJson(Unleased(st.live[worker])) in last.q.main && ToJson(st.live[worker]) !in last.q.processing
  {
    hide FromJson, ToJson, IsStale, LeaseOver, Reclaimed, AllParse, Accounted, TimesKept;
    var raw := ToJson(st.live[worker]);
    var s1 := Do(s, st, Die(worker));
    var s2 := Do(s, s1, Tick(at));
    last := Do(s, s2, Reclaim);
    assert [Die(worker), Tick(at), Reclaim][1..] == [Tick(at), Reclaim] && [Tick(at), Reclaim][1..] == [Reclaim] && [Reclaim][1..] == [];
    assert Run(s, s2, [Reclaim], last) && Run(s, s1, [Tick(at), Reclaim], last);
    ReadableLeases(st.q);
    ReclaimedWhole(s, st.q, at);
    RoundTrip(st.live[worker]);
  }

  lemma ReadableLeases(q: Queues)
    requires AllParse(q)
    ensures ReadablePrefix(q.processing) == |q.processing|
  {
    hide FromJson;
  }

  /** A new job is the newest of main; an operator's requeue without a limit leaves none failed, each as it was in main. */
  lemma QueuedForARun(s: Settings, st: State, id: string, kind: string, payload: Json, requestId: Option<string>)
    requires Inv(s, st) && id !in st.ids
    ensures var st' := Do(s, st, Enqueue(id, kind, payload, requestId));
            st'.q.main != [] && FromJson(st'.q.main[0]) == Success(Job(id, kind, payload, 0, requestId, None, None, None))
    ensures var st' := Do(s, st, Requeue(None));
            && st'.q.failed == [] && |st'.q.main| == |st.q.failed| + |st.q.main| && st'.q.main[|st.q.failed|..] == st.q.main
            && forall k :: 0 <= k < |st.q.failed| ==> FromJson(st'.q.main[k]) == FromJson(st.q.failed[k])
  {
    hide FromJson, ToJson, LeasesHeld, Accounted, TimesKept;
    RoundTrip(Job(id, kind, payload, 0, requestId, None, None, None));
    forall raw | raw in st.q.failed
      ensures FromJson(raw).Success? && FromJson(Rewritten(raw)) == FromJson(raw)
    {
      RoundTrip(FromJson(raw).value);
    }
    AllReadableBack(st.q.failed);
    assert st.q.failed[0..] == st.q.failed;
  }

  lemma {:induction false} AllReadableBack(entries: seq<Json>)
    requires forall raw :: raw in entries ==> FromJson(raw).Success?
    ensures ReadableSuffix(entries) == |entries|
  {
    hide FromJson;
    if entries != [] {
      assert entries[|entries| - 1] in entries;
      AllReadableBack(entries[..|entries| - 1]);
    }
  }

  // ---- retry timing ----

  lemma RetryTimesGrow(s: Settings, st: State, step: Step, id: string)
    requires s.Valid() && Inv(s, st) && Enabled(s, st, step) && id in st.notBefore
    ensures id in Do(s, st, step).notBefore && st.notBefore[id] <= Do(s, st, step).notBefore[id]
  {
    hide ToJson, FromJson, IdOf, HandleJob, Leased, Settled, Count;
    if step.Settle? {
      var job := st.live[step.worker];
      IdOfToJson(job);
      DelayInRange(s, job.attempts + 1);
    }
  }

  lemma {:induction false} RetryTimesGrowOverRuns(s: Settings, first: State, steps: seq<Step>, last: State, id: string)
    requires s.Valid() && Inv(s, first) && Run(s, first, steps, last) && id in first.notBefore
    ensures id in last.notBefore && first.notBefore[id] <= last.notBefore[id]
    decreases |steps|
  {
    hide Inv, Do, Enabled;
    if steps != [] {
      InvStep(s, first, steps[0]);
      RetryTimesGrow(s, first, steps[0], id);
      RetryTimesGrowOverRuns(s, Do(s, first, steps[0]), steps[1..], last, id);
    }
  }

  /**
   A job whose handler fails into its next attempt is not handed to any worker again before the
   retry delay of that attempt has passed, whatever happens in between.
   */
  lemma NeverRetriedEarly(s: Settings, init: State, before: seq<Step>, failing: State, worker: nat, run: HandlerRun,
                          between: seq<Step>, later: State, next: nat)
    requires s.Valid() && Init(init) && Run(s, init, before, failing)
    requires worker in failing.live && WillRetry(s, failing.live[worker], HandleJob(failing.live[worker], run))
    requires Run(s, Finished(s, failing, worker, run), between, later)
    requires Enabled(s, later, Dequeue(next)) && next in Do(s, later, Dequeue(next)).live
    requires Do(s, later, Dequeue(next)).live[next].id == failing.live[worker].id
    ensures later.now >= failing.now + RetryDelaySeconds(s, failing.live[worker].attempts + 1) * SECOND
  {
    hide Inv, IdOf, ToJson, FromJson, HandleJob, Settled, RetryDelaySeconds;
    var job := failing.live[worker];
    var failed := Finished(s, failing, worker, run);
    assert Do(s, failing, Settle(worker, run)) == failed;
    assert job.id in failed.notBefore && failed.notBefore[job.id] == RetryTime(s, job, failing.now);
    hide Finished, Do, Run;
    InvInit(s, init);
    InvRun(s, init, before, failing);
    InvStep(s, failing, Settle(worker, run));
    InvRun(s, failed, between, later);
    RetryTimesGrowOverRuns(s, failed, between, later, job.id);
    assert Do(s, later, Dequeue(next)) == Delivered(later, next);
    DeliveredOnTime(s, later, next, job.id);
  }

  lemma DeliveredOnTime(s: Settings, st: State, next: nat, id: string)
    requires Inv(s, st) && next !in st.live && id in st.notBefore
    requires next in Delivered(st, next).live && Delivered(st, next).live[next].id == id
    ensures st.notBefore[id] <= st.now
  {
    hide IdOf, ToJson, FromJson, Count;
    var raw := st.q.main[|st.q.main| - 1];
    assert raw in st.q.main;
    IdOfLease(raw, st.now);
  }

  // ---- draining ----

  /** Handler runs left after the current one: none for an unknown type, none beyond the retry limit. */
  function Budget(s: Settings, raw: Json): int {
    match FromJson(raw)
    case Failure(_) => 0
    case Success(job) =>
      if job.kind != SEND_PASSWORD_RESET_EMAIL && job.kind != VERIFY_PRESIGNED_UPLOAD then 0
      else if job.attempts < s.maxRetries then s.maxRetries - job.attempts
      else 0
  }

  ghost function WorkWeights(s: Settings): Weights {
    Weights(
      (raw: Json) => 3 * Budget(s, raw) + 2,
      (raw: Json) => 3 * Budget(s, raw) + 1,
      (raw: Json) => 3 * Budget(s, raw) + 3,
      (raw: Json) => 0)
  }

  /** What is left to do: falls at every step that moves a job. */
  ghost function Work(s: Settings, q: Queues): int {
    Weight(WorkWeights(s), q)
  }

  ghost function TryWeights(s: Settings, id: string): Weights {
    Weights(
      (raw: Json) => if IdOf(raw) == Some(id) then Budget(s, raw) + 1 else 0,
      (raw: Json) => if IdOf(raw) == Some(id) then Budget(s, raw) else 0,
      (raw: Json) => if IdOf(raw) == Some(id) then Budget(s, raw) + 1 else 0,
      (raw: Json) => 0)
  }

  /** How often the handler of an id can still be started. */
  ghost function Tries(s: Settings, id: string, q: Queues): int {
    Weight(TryWeights(s, id), q)
  }

  /** No new enqueue, reclaim, operator requeue; workers stay alive. */
  predicate Draining(step: Step) {
    step.Dequeue? || step.Settle? || step.Promote? || step.Tick?
  }

  ghost predicate Moves(st: State, step: Step) {
    match step
    case Dequeue(_) => st.q.main != []
    case Settle(_, _) => true
    case Promote(due, limit) => Taken(|due|, limit) > 0
    case _ => false
  }

  /** The step hands an entry of this id to a worker. */
  ghost predicate Delivers(st: State, step: Step, id: string) {
    step.Dequeue? && st.q.main != [] && IdOf(st.q.main[|st.q.main| - 1]) == Some(id)
  }

  lemma BudgetOfLease(s: Settings, raw: Json, now: Time)
    requires FromJson(raw).Success?
    ensures Budget(s, ToJson(FromJson(raw).value.WithProcessingStartedAt(now))) == Budget(s, raw)
  {
    hide FromJson, ToJson;
    IdOfToJson(FromJson(raw).value.WithProcessingStartedAt(now));
  }

  lemma BudgetOfRetry(s: Settings, job: Job, run: HandlerRun)
    requires WillRetry(s, job, HandleJob(job, run))
    ensures 0 <= Budget(s, ToJson(RetryCopy(job, HandleJob(job, run).message))) == Budget(s, ToJson(job)) - 1
  {
    hide FromJson, ToJson;
    IdOfToJson(job);
    IdOfToJson(RetryCopy(job, HandleJob(job, run).message));
  }

  /** A weight under which settling never gains: what a failed copy weighs is nothing, a retry one budget less. */
  lemma SettledWeight(w: Weights, s: Settings, st: State, worker: nat, run: HandlerRun)
    requires Inv(s, st) && worker in st.live
    requires forall raw :: w.failed(raw) == 0
    ensures var job := st.live[worker];
            var retried := ToJson(RetryCopy(job, if HandleJob(job, run).Raised? then HandleJob(job, run).message else ""));
            Weight(w, Finished(s, st, worker, run).q)
            == Weight(w, st.q) - w.processing(ToJson(job))
               + if WillRetry(s, job, HandleJob(job, run)) then w.delayed(retried) else 0
  {
    hide IdOf, ToJson, FromJson, RetryCopy, FailedCopy;
    var job := st.live[worker];
    assert Count(job.id, st.q) + st.acked[job.id] <= 1;
    OnlyInProcessing(st.q, job);
    match HandleJob(job, run) {
      case Completed => AckedWeight(w, st.q, job);
      case UnknownType(message) => FailedWeight(w, st.q, job, Some(message), st.now);
      case Raised(message) =>
        if job.attempts < s.maxRetries {
          RetryIsNew(st.q, job, message);
          RetriedWeight(w, s, st.q, job, message, st.now);
        } else {
          FailedWeight(w, st.q, job, Some(message), st.now);
        }
    }
  }

  lemma RetryIsNew(q: Queues, job: Job, message: string)
    requires Absent(job.id, q.delayed.Keys)
    ensures ToJson(RetryCopy(job, message)) !in q.delayed
  {
    hide ToJson, IdOf;
    IdOfToJson(RetryCopy(job, message));
  }

  lemma {:induction false} PromotedDifference(f: Json -> int, g: Json -> int, moved: seq<Json>, gap: int)
    requires forall raw :: f(raw) == g(raw) - gap
    ensures Sum(f, moved) == Sum(g, moved) - gap * |moved|
  {
    if moved != [] {
      PromotedDifference(f, g, moved[1..], gap);
    }
  }

  lemma WorkStep(s: Settings, st: State, step: Step)
    requires s.Valid() && Inv(s, st) && Enabled(s, st, step) && Draining(step)
    ensures Work(s, Do(s, st, step).q) <= Work(s, st.q)
    ensures Moves(st, step) ==> Work(s, Do(s, st, step).q) < Work(s, st.q)
  {
    hide IdOf, ToJson, FromJson, Budget, HandleJob, Weight;
    var w := WorkWeights(s);
    match step {
      case Dequeue(worker) =>
        if st.q.main != [] {
          var raw := st.q.main[|st.q.main| - 1];
          assert raw in st.q.main;
          LeasedWeight(w, st.q, st.now);
          BudgetOfLease(s, raw, st.now);
        }
      case Settle(worker, run) =>
        var job := st.live[worker];
        SettledWeight(w, s, st, worker, run);
        BudgetNonNegative(s, ToJson(job));
        if WillRetry(s, job, HandleJob(job, run)) {
          BudgetOfRetry(s, job, run);
        }
      case Promote(due, limit) =>
        PromotedWeight(w, st.q, st.now, due, limit);
        PromotedDifference(w.main, w.delayed, due[..Taken(|due|, limit)], 1);
      case Tick(_) =>
    }
  }

  lemma BudgetNonNegative(s: Settings, raw: Json)
    ensures Budget(s, raw) >= 0
  {
  }

  lemma TriesStep(s: Settings, st: State, step: Step, id: string)
    requires s.Valid() && Inv(s, st) && Enabled(s, st, step) && Draining(step)
    ensures Tries(s, id, Do(s, st, step).q) <= Tries(s, id, st.q) - if Delivers(st, step, id) then 1 else 0
  {
    hide IdOf, ToJson, FromJson, Budget, HandleJob, Weight;
    var w := TryWeights(s, id);
    match step {
      case Dequeue(worker) =>
        if st.q.main != [] {
          var raw := st.q.main[|st.q.main| - 1];
          assert raw in st.q.main;
          LeasedWeight(w, st.q, st.now);
          BudgetOfLease(s, raw, st.now);
          IdOfLease(raw, st.now);
        }
      case Settle(worker, run) =>
        var job := st.live[worker];
        SettledWeight(w, s, st, worker, run);
        BudgetNonNegative(s, ToJson(job));
        IdOfToJson(job);
        if WillRetry(s, job, HandleJob(job, run)) {
          BudgetOfRetry(s, job, run);
          IdOfToJson(RetryCopy(job, HandleJob(job, run).message));
        }
      case Promote(due, limit) =>
        PromotedWeight(w, st.q, st.now, due, limit);
        PromotedDifference(w.main, w.delayed, due[..Taken(|due|, limit)], 0);
      case Tick(_) =>
    }
  }

  lemma {:induction false} SumNonNegative(f: Json -> int, list: seq<Json>)
    requires forall raw :: f(raw) >= 0
    ensures Sum(f, list) >= 0
    ensures forall raw :: raw in list ==> Sum(f, list) >= f(raw)
  {
    if list != [] {
      SumNonNegative(f, list[1..]);
      assert list == [list[0]] + list[1..];
    }
  }

  lemma {:induction false} SumSetNonNegative(f: Json -> int, s: set<Json>)
    requires forall raw :: f(raw) >= 0
    ensures SumSet(f, s) >= 0
    ensures forall raw :: raw in s ==> SumSet(f, s) >= f(raw)
    decreases s
  {
    if s != {} {
      var x :| x in s;
      SumSetRemove(f, s, x);
      SumSetNonNegative(f, s - {x});
    }
  }

  /** No weight is negative, and an entry of a structure is part of the total. */
  lemma WeightNonNegative(w: Weights, q: Queues)
    requires forall raw :: w.main(raw) >= 0 && w.processing(raw) >= 0 && w.delayed(raw) >= 0 && w.failed(raw) >= 0
    ensures Weight(w, q) >= 0
    ensures forall raw :: raw in q.main ==> Weight(w, q) >= w.main(raw)
    ensures forall raw :: raw in q.processing ==> Weight(w, q) >= w.processing(raw)
    ensures forall raw :: raw in q.delayed ==> Weight(w, q) >= w.delayed(raw)
  {
    SumNonNegative(w.main, q.main);
    SumNonNegative(w.processing, q.processing);
    SumSetNonNegative(w.delayed, q.delayed.Keys);
    SumNonNegative(w.failed, q.failed);
  }

  /** The number of steps of a run that move a job. */
  ghost function MovesIn(s: Settings, first: State, steps: seq<Step>, last: State): nat
    requires Run(s, first, steps, last)
    decreases |steps|
  {
    if steps == [] then 0
    else (if Moves(first, steps[0]) then 1 else 0) + MovesIn(s, Do(s, first, steps[0]), steps[1..], last)
  }

  /** How often a run starts the handler of an id. */
  ghost function DeliveriesIn(s: Settings, first: State, steps: seq<Step>, last: State, id: string): nat
    requires Run(s, first, steps, last)
    decreases |steps|
  {
    if steps == [] then 0
    else (if Delivers(first, steps[0], id) then 1 else 0) + DeliveriesIn(s, Do(s, first, steps[0]), steps[1..], last, id)
  }

  /** A draining run makes at most as many moves as there is work at its start. */
  lemma {:induction false} DrainingTerminates(s: Settings, first: State, steps: seq<Step>, last: State)
    requires s.Valid() && Inv(s, first) && Run(s, first, steps, last)
    requires forall i :: 0 <= i < |steps| ==> Draining(steps[i])
    ensures 0 <= Work(s, last.q) <= Work(s, first.q) - MovesIn(s, first, steps, last)
    decreases |steps|
  {
    hide Inv, Enabled, Do, Moves, Weight, Budget;
    if steps == [] {
      forall raw
        ensures Budget(s, raw) >= 0
      {
        BudgetNonNegative(s, raw);
      }
      WeightNonNegative(WorkWeights(s), last.q);
    } else {
      InvStep(s, first, steps[0]);
      WorkStep(s, first, steps[0]);
      DrainingTerminates(s, Do(s, first, steps[0]), steps[1..], last);
    }
  }

  lemma {:induction false} DeliveriesBounded(s: Settings, first: State, steps: seq<Step>, last: State, id: string)
    requires s.Valid() && Inv(s, first) && Run(s, first, steps, last)
    requires forall i :: 0 <= i < |steps| ==> Draining(steps[i])
    ensures DeliveriesIn(s, first, steps, last, id) <= Tries(s, id, first.q)
    decreases |steps|
  {
    hide Inv, Enabled, Do, Delivers, Weight, Budget;
    if steps == [] {
      forall raw
        ensures Budget(s, raw) >= 0
      {
        BudgetNonNegative(s, raw);
      }
      WeightNonNegative(TryWeights(s, id), last.q);
    } else {
      InvStep(s, first, steps[0]);
      TriesStep(s, first, steps[0], id);
      DeliveriesBounded(s, Do(s, first, steps[0]), steps[1..], last, id);
    }
  }

  lemma {:induction false} SumOfAbsent(f: Json -> int, list: seq<Json>, id: string)
    requires Absent(id, Elements(list))
    requires forall raw :: IdOf(raw) != Some(id) ==> f(raw) == 0
    ensures Sum(f, list) == 0
  {
    hide IdOf;
    if list != [] {
      assert Elements(list) == {list[0]} + Elements(list[1..]);
      SumOfAbsent(f, list[1..], id);
    }
  }

  lemma {:induction false} SumSetOfAbsent(f: Json -> int, s: set<Json>, id: string)
    requires Absent(id, s)
    requires forall raw :: IdOf(raw) != Some(id) ==> f(raw) == 0
    ensures SumSet(f, s) == 0
    decreases s
  {
    hide IdOf;
    if s != {} {
      var x :| x in s;
      SumSetRemove(f, s, x);
      SumSetOfAbsent(f, s - {x}, id);
    }
  }

  lemma TriesOfQueued(s: Settings, q: Queues, raw: Json, id: string)
    requires Count(id, q) <= 1 && raw in q.main && IdOf(raw) == Some(id)
    ensures Tries(s, id, q) == Budget(s, raw) + 1
  {
    hide IdOf, Budget, LRem;
    var t, w := Tally(id), TryWeights(s, id);
    SumLRem(t, q.main, raw);
    TallyList(id, LRem(q.main, raw));
    TallyList(id, q.processing);
    TallySet(id, q.delayed.Keys);
    TallyList(id, q.failed);
    SumLRem(w.main, q.main, raw);
    SumOfAbsent(w.main, LRem(q.main, raw), id);
    SumOfAbsent(w.processing, q.processing, id);
    SumSetOfAbsent(w.delayed, q.delayed.Keys, id);
    SumOfAbsent(w.failed, q.failed, id);
  }

  lemma TriesOfDelayed(s: Settings, q: Queues, raw: Json, id: string)
    requires Count(id, q) <= 1 && raw in q.delayed && IdOf(raw) == Some(id)
    ensures Tries(s, id, q) == Budget(s, raw) + 1
  {
    hide IdOf, Budget;
    var t, w, keys := Tally(id), TryWeights(s, id), q.delayed.Keys;
    SumSetRemove(t, keys, raw);
    TallyList(id, q.main);
    TallyList(id, q.processing);
    TallySet(id, keys - {raw});
    TallyList(id, q.failed);
    SumSetRemove(w.delayed, keys, raw);
    SumOfAbsent(w.main, q.main, id);
    SumOfAbsent(w.processing, q.processing, id);
    SumSetOfAbsent(w.delayed, keys - {raw}, id);
    SumOfAbsent(w.failed, q.failed, id);
  }

  lemma TriesOfLeased(s: Settings, q: Queues, raw: Json, id: string)
    requires Count(id, q) <= 1 && raw in q.processing && IdOf(raw) == Some(id)
    ensures Tries(s, id, q) == Budget(s, raw)
  {
    hide IdOf, Budget, LRem;
    var t, w := Tally(id), TryWeights(s, id);
    SumLRem(t, q.processing, raw);
    TallyList(id, q.main);
    TallyList(id, LRem(q.processing, raw));
    TallySet(id, q.delayed.Keys);
    TallyList(id, q.failed);
    SumLRem(w.processing, q.processing, raw);
    SumOfAbsent(w.main, q.main, id);
    SumOfAbsent(w.processing, LRem(q.processing, raw), id);
    SumSetOfAbsent(w.delayed, q.delayed.Keys, id);
    SumOfAbsent(w.failed, q.failed, id);
  }

  /**
   A job in main or delayed that has been attempted `a` times has its handler started at most `maxRetries - a + 1`
   times while draining, one that is leased at most `maxRetries - a` times more; a job of an unknown type is started
   once, and never again from its lease.
   */
  lemma HandlerRunsBounded(s: Settings, init: State, before: seq<Step>, first: State, steps: seq<Step>, last: State, raw: Json)
    requires s.Valid() && Init(init) && Run(s, init, before, first) && Run(s, first, steps, last)
    requires forall i :: 0 <= i < |steps| ==> Draining(steps[i])
    requires raw in first.q.main || raw in first.q.delayed || raw in first.q.processing
    ensures FromJson(raw).Success?
    ensures var job := FromJson(raw).value;
            var runs := DeliveriesIn(s, first, steps, last, job.id);
            var starts := if raw in first.q.processing then 0 else 1;
            && (job.attempts <= s.maxRetries ==> runs <= s.maxRetries - job.attempts + starts)
            && (HandleJob(job, Returns).UnknownType? ==> runs <= starts)
  {
    hide FromJson, ToJson, Count;
    InvInit(s, init);
    InvRun(s, init, before, first);
    var id := FromJson(raw).value.id;
    assert Count(id, first.q) + first.acked[id] <= 1;
    if raw in first.q.processing {
      TriesOfLeased(s, first.q, raw, id);
    } else if raw in first.q.main {
      TriesOfQueued(s, first.q, raw, id);
    } else {
      TriesOfDelayed(s, first.q, raw, id);
    }
    DeliveriesBounded(s, first, steps, last, id);
  }

  // ---- where draining ends ----

  /** Every lease in the processing list belongs to a live worker. */
  ghost predicate Manned(st: State) {
    forall raw :: raw in st.q.processing ==> exists w :: w in st.live && ToJson(st.live[w]) == raw
  }

  /** Clock readings and scores are not negative, as the range query assumes. */
  ghost predicate Clocked(st: State) {
    0 <= st.now && forall raw :: raw in st.q.delayed ==> 0 <= st.q.delayed[raw]
  }

  lemma MannedAfterDequeue(st: State, worker: nat)
    requires AllParse(st.q) && Manned(st) && Clocked(st) && worker !in st.live
    ensures Manned(Delivered(st, worker)) && Clocked(Delivered(st, worker))
  {
    hide IdOf, ToJson, FromJson;
    var next := Delivered(st, worker);
    if st.q.main != [] {
      assert st.q.main[|st.q.main| - 1] in st.q.main;
      forall raw | raw in next.q.processing
        ensures exists w :: w in next.live && ToJson(next.live[w]) == raw
      {
        if raw == next.q.processing[0] {
          assert worker in next.live;
        } else {
          var w :| w in st.live && ToJson(st.live[w]) == raw;
          assert w in next.live && next.live[w] == st.live[w];
        }
      }
    }
  }

  lemma MannedAfterSettle(s: Settings, st: State, worker: nat, run: HandlerRun)
    requires s.Valid() && Inv(s, st) && Manned(st) && Clocked(st) && worker in st.live
    ensures Manned(Finished(s, st, worker, run)) && Clocked(Finished(s, st, worker, run))
  {
    hide IdOf, ToJson, FromJson, HandleJob, Count, LRem, RetryDelaySeconds, RetryCopy, FailedCopy;
    var job := st.live[worker];
    var next := Finished(s, st, worker, run);
    assert Count(job.id, st.q) + st.acked[job.id] <= 1;
    OnlyInProcessing(st.q, job);
    DelayInRange(s, job.attempts + 1);
    IdOfToJson(job);
    forall raw | raw in next.q.processing
      ensures exists w :: w in next.live && ToJson(next.live[w]) == raw
    {
      LRemMembers(st.q.processing, ToJson(job), raw);
      var w :| w in st.live && ToJson(st.live[w]) == raw;
      assert raw in Elements(LRem(st.q.processing, ToJson(job)));
      assert w != worker && w in next.live;
    }
  }

  lemma MannedStep(s: Settings, st: State, step: Step)
    requires s.Valid() && Inv(s, st) && Manned(st) && Clocked(st) && Enabled(s, st, step) && Draining(step)
    ensures Manned(Do(s, st, step)) && Clocked(Do(s, st, step))
  {
    hide IdOf, ToJson, FromJson, HandleJob, Accounted, LeasesHeld, TimesKept;
    match step {
      case Dequeue(worker) => MannedAfterDequeue(st, worker);
      case Settle(worker, run) => MannedAfterSettle(s, st, worker, run);
      case Promote(due, limit) =>
      case Tick(_) =>
    }
  }

  /** No work is left exactly when main, processing and delayed are empty. */
  lemma NoWorkLeft(s: Settings, q: Queues)
    ensures Work(s, q) >= 0
    ensures Work(s, q) == 0 <==> q.main == [] && q.processing == [] && q.delayed == map[]
  {
    hide Budget;
    forall raw
      ensures Budget(s, raw) >= 0
    {
      BudgetNonNegative(s, raw);
    }
    WeightNonNegative(WorkWeights(s), q);
    ZeroFailed(WorkWeights(s), q.failed);
    if q.main != [] {
      assert q.main[0] in q.main;
    } else if q.processing != [] {
      assert q.processing[0] in q.processing;
    } else if q.delayed != map[] {
      var raw :| raw in q.delayed;
    }
  }

  lemma {:induction false} ZeroFailed(w: Weights, list: seq<Json>)
    requires forall raw :: w.failed(raw) == 0
    ensures Sum(w.failed, list) == 0
  {
    if list != [] {
      ZeroFailed(w, list[1..]);
    }
  }

  lemma {:induction false} EarliestOf(delayed: map<Json, Time>, entries: set<Json>) returns (first: Json)
    requires entries != {} && entries <= delayed.Keys
    ensures first in entries && forall raw :: raw in entries ==> delayed[first] <= delayed[raw]
    decreases entries
  {
    first :| first in entries;
    if entries != {first} {
      var other := EarliestOf(delayed, entries - {first});
      first := if delayed[first] <= delayed[other] then first else other;
    }
  }

  lemma {:induction false} Sorted(delayed: map<Json, Time>, entries: set<Json>) returns (order: seq<Json>)
    requires entries <= delayed.Keys
    ensures forall raw :: raw in order <==> raw in entries
    ensures forall i, j :: 0 <= i < j < |order| ==> order[i] != order[j] && delayed[order[i]] <= delayed[order[j]]
    decreases entries
  {
    if entries == {} {
      order := [];
    } else {
      var first := EarliestOf(delayed, entries);
      var rest := Sorted(delayed, entries - {first});
      order := [first] + rest;
    }
  }

  lemma {:induction false} LatestScore(delayed: map<Json, Time>, entries: set<Json>, now: Time) returns (latest: Time)
    requires entries <= delayed.Keys
    ensures now <= latest && forall raw :: raw in entries ==> delayed[raw] <= latest
    decreases entries
  {
    latest := now;
    if entries != {} {
      var raw :| raw in entries;
      var rest := LatestScore(delayed, entries - {raw}, now);
      latest := if delayed[raw] <= rest then rest else delayed[raw];
    }
  }

  lemma EmptyOrInhabited(list: seq<Json>)
    ensures list == [] || exists raw :: raw in list
  {
    if list != [] {
      assert list[0] in list;
    }
  }

  /** While work is left and no worker has died, some step makes progress, perhaps after the clock has moved on. */
  lemma Progress(s: Settings, st: State) returns (wait: seq<Step>, ready: State, step: Step)
    requires s.Valid() && Inv(s, st) && Manned(st) && Clocked(st) && Work(s, st.q) > 0
    ensures |wait| <= 1 && (forall i :: 0 <= i < |wait| ==> Draining(wait[i])) && Run(s, st, wait, ready)
    ensures Draining(step) && Enabled(s, ready, step) && Moves(ready, step)
  {
    hide IdOf, ToJson, FromJson, Count, Inv, Work, IsStale;
    NoWorkLeft(s, st.q);
    wait, ready := [], st;
    if st.live != map[] {
      var worker :| worker in st.live;
      step := Settle(worker, Returns);
    } else if st.q.main != [] {
      var worker := UnusedKey(st.live.Keys);
      step := Dequeue(worker);
    } else {
      EmptyOrInhabited(st.q.processing);
      var latest := LatestScore(st.q.delayed, st.q.delayed.Keys, st.now);
      wait := [Tick(latest)];
      ready := Do(s, st, wait[0]);
      assert Run(s, ready, wait[1..], ready);
      var due := Sorted(st.q.delayed, st.q.delayed.Keys);
      var raw :| raw in st.q.delayed;
      assert raw in due;
      step := Promote(due, None);
    }
  }

  /** With nothing left to do, every id was acknowledged once or sits once in the failed list. */
  lemma DrainedIsSettled(s: Settings, st: State)
    requires Inv(s, st) && Work(s, st.q) == 0
    ensures forall id :: id in st.ids ==> Sum(Tally(id), st.q.failed) + st.acked[id] == 1
  {
    hide IdOf, FromJson, ToJson;
    NoWorkLeft(s, st.q);
    forall id | id in st.ids
      ensures Sum(Tally(id), st.q.failed) + st.acked[id] == 1
    {
      assert Count(id, st.q) + st.acked[id] == 1;
    }
  }

  lemma {:induction false} RunConcat(s: Settings, a: State, first: seq<Step>, b: State, second: seq<Step>, c: State)
    requires Run(s, a, first, b) && Run(s, b, second, c)
    ensures Run(s, a, first + second, c)
    decreases |first|
  {
    hide Enabled, Do;
    if first == [] {
      assert first + second == second;
    } else {
      RunConcat(s, Do(s, a, first[0]), first[1..], b, second, c);
      assert (first + second)[1..] == first[1..] + second;
    }
  }

  /** From every reachable state whose leases are all held by live workers, draining can always be carried to the end. */
  lemma {:induction false} DrainingCompletes(s: Settings, st: State) returns (steps: seq<Step>, last: State)
    requires s.Valid() && Inv(s, st) && Manned(st) && Clocked(st)
    ensures Run(s, st, steps, last) && forall i :: 0 <= i < |steps| ==> Draining(steps[i])
    ensures Work(s, last.q) == 0 && last.ids == st.ids
    ensures forall id :: id in st.ids ==> Sum(Tally(id), last.q.failed) + last.acked[id] == 1
    decreases Work(s, st.q)
  {
    hide IdOf, FromJson, ToJson, Inv, Manned, Clocked, Work, Enabled, Do, Draining, Tally, Sum;
    NoWorkLeft(s, st.q);
    if Work(s, st.q) == 0 {
      DrainedIsSettled(s, st);
      steps, last := [], st;
    } else {
      var wait, ready, step := Progress(s, st);
      DrainingKeeps(s, st, wait, ready);
      InvStep(s, ready, step);
      MannedStep(s, ready, step);
      WorkStep(s, ready, step);
      DrainingAddsNoId(s, ready, step);
      var rest;
      rest, last := DrainingCompletes(s, Do(s, ready, step));
      assert ([step] + rest)[1..] == rest;
      RunConcat(s, st, wait, ready, [step] + rest, last);
      steps := wait + ([step] + rest);
    }
  }

  lemma DrainingAddsNoId(s: Settings, st: State, step: Step)
    requires Enabled(s, st, step) && Draining(step)
    ensures Do(s, st, step).ids == st.ids
  {
  }

  lemma {:induction false} DrainingKeeps(s: Settings, first: State, steps: seq<Step>, last: State)
    requires s.Valid() && Inv(s, first) && Manned(first) && Clocked(first) && Run(s, first, steps, last)
    requires forall i :: 0 <= i < |steps| ==> Draining(steps[i])
    ensures Inv(s, last) && Manned(last) && Clocked(last) && Work(s, last.q) <= Work(s, first.q)
    ensures last.ids == first.ids
    decreases |steps|
  {
    hide Inv, Manned, Clocked, Work, Enabled, Do, Draining;
    if steps != [] {
      InvStep(s, first, steps[0]);
      MannedStep(s, first, steps[0]);
      WorkStep(s, first, steps[0]);
      DrainingAddsNoId(s, first, steps[0]);
      DrainingKeeps(s, Do(s, first, steps[0]), steps[1..], last);
    }
  }

  // ---- fencing ----

  lemma {:induction false} LRemCounts(list: seq<Json>, value: Json, other: Json)
    ensures multiset(LRem(list, value))[other]
         == if other == value && value in list then multiset(list)[other] - 1 else multiset(list)[other]
  {
    if list != [] {
      assert list == [list[0]] + list[1..];
      if list[0] != value {
        LRemCounts(list[1..], value, other);
      }
    }
  }

  /**
   Settling a job whose lease was returned and taken again touches the new lease exactly when the two
   leases are the same job, start time included: only then do their entries coincide.
   */
  lemma StaleWorkerFenced(s: Settings, q: Queues, stale: Job, current: Job, run: HandlerRun, now: Time)
    requires ToJson(current) in q.processing
    ensures var after := Settled(s, q, stale, HandleJob(stale, run), now).processing;
            multiset(after)[ToJson(current)] == multiset(q.processing)[ToJson(current)] <==> stale != current
  {
    hide ToJson, FromJson;
    LRemCounts(q.processing, ToJson(stale), ToJson(current));
    if ToJson(stale) == ToJson(current) {
      ToJsonInjective(stale, current);
    }
  }

  /** The same over the queue functions: lease, reclaim, lease again at another time, then the first worker settles. */
  lemma ReleasedJobFenced(s: Settings, q: Queues, held: Job, again: Time, run: HandlerRun, now: Time)
    requires held.startedAt.Some? && held.startedAt.value != again
    requires q.main != [] && q.main[|q.main| - 1] == Stripped(ToJson(held))
    ensures var (q', result) := Leased(q, again);
            && result == Success(Some(held.WithProcessingStartedAt(again)))
            && var lease := ToJson(held.WithProcessingStartedAt(again));
            lease in q'.processing
            && multiset(Settled(s, q', held, HandleJob(held, run), now).processing)[lease] == multiset(q'.processing)[lease]
  {
    hide ToJson, FromJson, HandleJob, Settled;
    IdOfToJson(held);
    IdOfToJson(held.WithoutProcessingStartedAt());
    var current := held.WithProcessingStartedAt(again);
    var q' := Leased(q, again).0;
    assert q'.processing[0] == ToJson(current);
    StaleWorkerFenced(s, q', held, current, run, now);
  }
}

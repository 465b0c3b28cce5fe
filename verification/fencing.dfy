/**
 Fencing over whole runs, with no assumption about time: handlers may outlive their visibility timeout, their jobs be
 reclaimed and leased again, and the late workers still ack, retry or fail what they hold.
 */
module Fencing {
  import opened Clock
  import opened Wrappers
  import opened Jobs
  import opened Backoff
  import opened JobQueue
  import opened Worker
  import opened Leases
  import opened LeaseTheorems

  /** The steps of the queue machine, with time free to pass. */
  ghost predicate Possible(s: Settings, st: State, step: Step) {
    if step.Tick? then st.now <= step.to else Enabled(s, st, step)
  }

  ghost function Next(s: Settings, st: State, step: Step): State
    requires Possible(s, st, step)
  {
    if step.Tick? then st.(now := step.to) else Do(s, st, step)
  }

  ghost predicate AnyRun(s: Settings, first: State, steps: seq<Step>, last: State)
    decreases |steps|
  {
    if steps == [] then first == last
    else Possible(s, first, steps[0]) && AnyRun(s, Next(s, first, steps[0]), steps[1..], last)
  }

  /** The workers whose handler runs under exactly this lease. */
  function Holders(live: map<nat, Job>, lease: Job): set<nat> {
    set w | w in live && live[w] == lease
  }

  /** The processing list has an entry of this lease for each worker that holds it, unless the lease is stale. */
  ghost predicate Covered(s: Settings, st: State, lease: Job) {
    IsStale(s, lease, st.now) || multiset(st.q.processing)[ToJson(lease)] >= |Holders(st.live, lease)|
  }

  ghost predicate AllCovered(s: Settings, st: State) {
    forall lease :: Covered(s, st, lease)
  }

  lemma HoldersAfterLease(live: map<nat, Job>, worker: nat, held: Job, lease: Job)
    requires worker !in live
    ensures |Holders(live[worker := held], lease)| == |Holders(live, lease)| + if lease == held then 1 else 0
  {
    var more := Holders(live[worker := held], lease);
    assert more == Holders(live, lease) + if lease == held then {worker} else {};
  }

  lemma HoldersAfterLeaving(live: map<nat, Job>, worker: nat, lease: Job)
    requires worker in live
    ensures |Holders(live - {worker}, lease)| == |Holders(live, lease)| - if lease == live[worker] then 1 else 0
  {
    assert Holders(live, lease) == Holders(live - {worker}, lease) + if lease == live[worker] then {worker} else {};
  }

  lemma PushCounts(list: seq<Json>, entry: Json, other: Json)
    ensures multiset([entry] + list)[other] == multiset(list)[other] + if other == entry then 1 else 0
  {
    assert multiset([entry] + list) == multiset{entry} + multiset(list);
  }

  /** The scan of the reclaimer leaves every entry that is not stale as often as it was. */
  lemma {:induction false} FreshCounts(s: Settings, entries: seq<Json>, now: Time, raw: Json)
    requires !StaleEntry(s, raw, now)
    ensures multiset(Fresh(s, entries, now))[raw] == multiset(entries)[raw]
  {
    hide FromJson, ToJson;
    if entries != [] {
      var n := |entries| - 1;
      FreshCounts(s, entries[..n], now, raw);
      assert entries == entries[..n] + [entries[n]];
      assert multiset(entries) == multiset(entries[..n]) + multiset{entries[n]};
      var kept := if StaleEntry(s, entries[n], now) then [] else [entries[n]];
      assert multiset(Fresh(s, entries, now)) == multiset(Fresh(s, entries[..n], now)) + multiset(kept);
    }
  }

  /** A dequeue puts one entry at the head of processing, and a readable one under the worker's lease. */
  lemma DeliveredIs(st: State, worker: nat)
    requires st.q.main != []
    ensures var raw, st' := st.q.main[|st.q.main| - 1], Delivered(st, worker);
            && st'.now == st.now
            && if FromJson(raw).Success? then
                 var held := FromJson(raw).value.WithProcessingStartedAt(st.now);
                 st'.q.processing == [ToJson(held)] + st.q.processing && st'.live == st.live[worker := held]
               else st'.q.processing == [raw] + st.q.processing && st'.live == st.live
  {
    hide FromJson, ToJson;
  }

  lemma LeasingCovers(s: Settings, st: State, worker: nat, lease: Job)
    requires AllCovered(s, st) && worker !in st.live
    ensures Covered(s, Delivered(st, worker), lease)
  {
    hide FromJson, ToJson, Holders, IsStale;
    assert Covered(s, st, lease);
    if st.q.main == [] {
      assert Delivered(st, worker) == st;
    } else {
      DeliveredIs(st, worker);
      hide Delivered;
      var raw := st.q.main[|st.q.main| - 1];
      if FromJson(raw).Success? {
        var held := FromJson(raw).value.WithProcessingStartedAt(st.now);
        HoldersAfterLease(st.live, worker, held, lease);
        PushCounts(st.q.processing, ToJson(held), ToJson(lease));
      } else {
        PushCounts(st.q.processing, raw, ToJson(lease));
      }
    }
  }

  lemma SettledProcessing(s: Settings, q: Queues, job: Job, outcome: Outcome, now: Time)
    ensures Settled(s, q, job, outcome, now).processing == LRem(q.processing, ToJson(job))
  {
    hide FromJson, ToJson;
  }

  lemma SettlingCovers(s: Settings, st: State, worker: nat, run: HandlerRun, lease: Job)
    requires AllCovered(s, st) && worker in st.live
    ensures Covered(s, Finished(s, st, worker, run), lease)
  {
    hide FromJson, ToJson, Holders, IsStale, Settled, HandleJob;
    var job := st.live[worker];
    assert Covered(s, st, lease);
    SettledProcessing(s, st.q, job, HandleJob(job, run), st.now);
    LRemCounts(st.q.processing, ToJson(job), ToJson(lease));
    HoldersAfterLeaving(st.live, worker, lease);
    if ToJson(job) == ToJson(lease) {
      ToJsonInjective(job, lease);
    }
  }

  lemma ReclaimingCovers(s: Settings, st: State, lease: Job)
    requires AllCovered(s, st)
    ensures Covered(s, st.(q := Reclaimed(s, st.q, st.now)), lease)
  {
    hide FromJson, ToJson, Holders, IsStale, Returned, Fresh;
    assert Covered(s, st, lease);
    if !IsStale(s, lease, st.now) {
      IdOfToJson(lease);
      var k := ReadablePrefix(st.q.processing);
      var scanned, rest := st.q.processing[..k], st.q.processing[k..];
      FreshCounts(s, scanned, st.now, ToJson(lease));
      assert st.q.processing == scanned + rest;
      assert multiset(st.q.processing) == multiset(scanned) + multiset(rest);
      assert multiset(Fresh(s, scanned, st.now) + rest) == multiset(Fresh(s, scanned, st.now)) + multiset(rest);
    }
  }

  /** Time only makes leases stale. */
  lemma StaleForGood(s: Settings, lease: Job, now: Time, later: Time)
    requires now <= later && IsStale(s, lease, now)
    ensures IsStale(s, lease, later)
  {
  }

  lemma CoveredStep(s: Settings, st: State, step: Step, lease: Job)
    requires AllCovered(s, st) && Possible(s, st, step)
    ensures Covered(s, Next(s, st, step), lease)
  {
    hide FromJson, ToJson, Holders, IsStale, Reclaimed, Promoted, Requeued, Finished, Delivered, DueOrder;
    assert Covered(s, st, lease);
    match step
    case Dequeue(worker) => LeasingCovers(s, st, worker, lease);
    case Settle(worker, run) => SettlingCovers(s, st, worker, run, lease);
    case Reclaim => ReclaimingCovers(s, st, lease);
    case Die(worker) => HoldersAfterLeaving(st.live, worker, lease);
    case Tick(to) =>
      if IsStale(s, lease, st.now) {
        StaleForGood(s, lease, st.now, to);
      }
    case Enqueue(_, _, _, _) =>
    case Promote(due, limit) => OthersKeepProcessing(st.q, due, limit);
    case Requeue(limit) => OthersKeepProcessing(st.q, [], limit);
  }

  lemma OthersKeepProcessing(q: Queues, due: seq<Json>, limit: Option<int>)
    ensures Promoted(q, due, limit).processing == q.processing && Requeued(q, limit).processing == q.processing
  {
    hide FromJson, ToJson, Reverse, RewrittenAll;
  }

  lemma {:induction false} CoveredRun(s: Settings, first: State, steps: seq<Step>, last: State)
    requires AllCovered(s, first) && AnyRun(s, first, steps, last)
    ensures AllCovered(s, last)
    decreases |steps|
  {
    hide Covered, Possible, Next;
    if steps != [] {
      forall lease
        ensures Covered(s, Next(s, first, steps[0]), lease)
      {
        CoveredStep(s, first, steps[0], lease);
      }
      CoveredRun(s, Next(s, first, steps[0]), steps[1..], last);
    }
  }

  /**
   In every reachable state the processing list holds at least as many entries equal to a lease that is not stale as
   there are workers holding that lease. So whatever workers of stale leases have done, a worker in time still finds
   its own entry to ack, retry or fail.
   */
  lemma LeasesInTimeAreFenced(s: Settings, first: State, steps: seq<Step>, last: State)
    requires Init(first) && AnyRun(s, first, steps, last)
    ensures forall lease :: !IsStale(s, lease, last.now) ==>
              multiset(last.q.processing)[ToJson(lease)] >= |Holders(last.live, lease)|
    ensures forall w :: w in last.live && !IsStale(s, last.live[w], last.now) ==> ToJson(last.live[w]) in last.q.processing
  {
    hide AnyRun, IsStale, ToJson;
    assert AllCovered(s, first) by {
      forall lease
        ensures Covered(s, first, lease)
      {
        assert Holders(first.live, lease) == {};
      }
    }
    CoveredRun(s, first, steps, last);
    forall lease | !IsStale(s, lease, last.now)
      ensures multiset(last.q.processing)[ToJson(lease)] >= |Holders(last.live, lease)|
    {
      assert Covered(s, last, lease);
    }
    forall w | w in last.live && !IsStale(s, last.live[w], last.now)
      ensures ToJson(last.live[w]) in last.q.processing
    {
      assert w in Holders(last.live, last.live[w]);
      assert multiset(last.q.processing)[ToJson(last.live[w])] >= 1;
    }
  }
}

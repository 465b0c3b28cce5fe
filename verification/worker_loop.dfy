/** The worker's main loop is a run of the queue machine, so everything proved of those runs holds of it. */
module WorkerLoop {
  import opened Clock
  import opened Wrappers
  import opened Jobs
  import opened Backoff
  import opened JobQueue
  import opened Worker
  import opened Leases
  import opened LeaseTheorems

  /** The clock readings of one pass through the loop, and how its handler ends if there is a job. */
  datatype Round = Round(monotonic: Time, maintainedAt: Time, leasedAt: Time, settledAt: Time, run: HandlerRun)

  /** The wall clock never runs backwards, and each handler ends before its visibility timeout. */
  predicate Timely(s: Settings, now: Time, rounds: seq<Round>)
    decreases |rounds|
  {
    rounds == [] ||
    (var r := rounds[0];
     && now <= r.maintainedAt <= r.leasedAt <= r.settledAt < r.leasedAt + s.visibilityTimeout * SECOND
     && Timely(s, r.settledAt, rounds[1..]))
  }

  /** When queue maintenance last ran, after some rounds. */
  function LastMaintenance(interval: Time, before: Time, rounds: seq<Round>): Time {
    if rounds == [] then before
    else
      var earlier := LastMaintenance(interval, before, rounds[..|rounds| - 1]);
      var at := rounds[|rounds| - 1].monotonic;
      if at - earlier >= interval then at else earlier
  }

  /** What one pass does: maintenance when the interval has passed, then one job if there is one. */
  ghost predicate IsTurn(round: Round, maintained: bool, batch: int, steps: seq<Step>) {
    var k := if maintained then 3 else 0;
    && k <= |steps|
    && (maintained ==>
          steps[0] == Tick(round.maintainedAt) && steps[1] == Reclaim && steps[2].Promote? && steps[2].limit == Some(batch))
    && (steps[k..] == [Tick(round.leasedAt), Dequeue(0)]
        || steps[k..] == [Tick(round.leasedAt), Dequeue(0), Tick(round.settledAt), Settle(0, round.run)])
  }

  /** One turn a round, each with or without maintenance as the interval says. */
  ghost predicate Turned(interval: Time, batch: int, start: Time, rounds: seq<Round>, turns: seq<seq<Step>>) {
    && |turns| == |rounds|
    && forall i :: 0 <= i < |rounds| ==>
         IsTurn(rounds[i], rounds[i].monotonic - LastMaintenance(interval, start, rounds[..i]) >= interval, batch, turns[i])
  }

  lemma TurnedPush(interval: Time, batch: int, start: Time, rounds: seq<Round>, turns: seq<seq<Step>>, turn: seq<Step>)
    requires |turns| < |rounds| && Turned(interval, batch, start, rounds[..|turns|], turns)
    requires IsTurn(rounds[|turns|], rounds[|turns|].monotonic - LastMaintenance(interval, start, rounds[..|turns|]) >= interval,
                    batch, turn)
    ensures Turned(interval, batch, start, rounds[..|turns| + 1], turns + [turn])
  {
    hide IsTurn, LastMaintenance;
    var n := |turns|;
    assert forall i :: 0 <= i <= n ==> rounds[..n + 1][..i] == rounds[..i];
    assert forall i :: 0 <= i < n ==> rounds[..n][..i] == rounds[..i];
  }

  ghost function Flatten(turns: seq<seq<Step>>): seq<Step> {
    if turns == [] then [] else Flatten(turns[..|turns| - 1]) + turns[|turns| - 1]
  }

  /** The state between two passes: the queues as stored, and no handler running. */
  ghost predicate Between(s: Settings, q: Queues, now: Time, st: State) {
    Inv(s, st) && st.q == q && st.now <= now && st.live == map[]
  }

  lemma {:induction false} RunPush(s: Settings, first: State, steps: seq<Step>, st: State, step: Step)
    requires Run(s, first, steps, st) && Enabled(s, st, step)
    ensures Run(s, first, steps + [step], Do(s, st, step))
    decreases |steps|
  {
    hide Enabled, Do;
    if steps == [] {
      assert [step][1..] == [];
    } else {
      RunPush(s, Do(s, first, steps[0]), steps[1..], st, step);
      assert (steps + [step])[1..] == steps[1..] + [step];
    }
  }

  lemma Push(s: Settings, first: State, steps: seq<Step>, st: State, step: Step)
    requires s.Valid() && Run(s, first, steps, st) && Inv(s, st) && Enabled(s, st, step)
    ensures Run(s, first, steps + [step], Do(s, st, step)) && Inv(s, Do(s, st, step))
  {
    hide Run, Inv, Enabled, Do;
    RunPush(s, first, steps, st, step);
    InvStep(s, st, step);
  }

  lemma {:induction false} AllReadable(entries: seq<Json>)
    requires forall raw :: raw in entries ==> FromJson(raw).Success?
    ensures ReadablePrefix(entries) == |entries|
  {
    hide FromJson;
    if entries != [] {
      assert entries == [entries[0]] + entries[1..];
      assert entries[0] in entries;
      AllReadable(entries[1..]);
    }
  }

  /** The maintenance part of a pass. */
  lemma Maintained(s: Settings, st: State, round: Round, batch: int, due: seq<Json>) returns (next: State)
    requires s.Valid() && Between(s, st.q, round.maintainedAt, st)
    requires DueOrder(Reclaimed(s, st.q, round.maintainedAt).delayed, round.maintainedAt, due)
    ensures Run(s, st, [Tick(round.maintainedAt), Reclaim, Promote(due, Some(batch))], next)
    ensures Between(s, Promoted(Reclaimed(s, st.q, round.maintainedAt), due, Some(batch)), round.maintainedAt, next)
  {
    hide Inv, Reclaimed, Promoted, DueOrder;
    var s1 := Do(s, st, Tick(round.maintainedAt));
    var s2 := Do(s, s1, Reclaim);
    assert Enabled(s, s2, Promote(due, Some(batch)));
    next := Do(s, s2, Promote(due, Some(batch)));
    assert s1.live == s2.live == next.live == map[];
    assert next.now == round.maintainedAt && next.q == Promoted(Reclaimed(s, st.q, round.maintainedAt), due, Some(batch));
    assert Run(s, st, [], st);
    hide Do, Run;
    Push(s, st, [], st, Tick(round.maintainedAt));
    Push(s, st, [] + [Tick(round.maintainedAt)], s1, Reclaim);
    Push(s, st, [] + [Tick(round.maintainedAt)] + [Reclaim], s2, Promote(due, Some(batch)));
    assert [] + [Tick(round.maintainedAt)] + [Reclaim] + [Promote(due, Some(batch))]
        == [Tick(round.maintainedAt), Reclaim, Promote(due, Some(batch))];
  }

  /** The job part of a pass; no entry of a reachable queue is unreadable, so it does not raise. */
  lemma JobDone(s: Settings, st: State, round: Round) returns (steps: seq<Step>, next: State)
    requires s.Valid() && Between(s, st.q, round.leasedAt, st)
    requires round.leasedAt <= round.settledAt < round.leasedAt + s.visibilityTimeout * SECOND
    ensures steps == [Tick(round.leasedAt), Dequeue(0)]
            || steps == [Tick(round.leasedAt), Dequeue(0), Tick(round.settledAt), Settle(0, round.run)]
    ensures Run(s, st, steps, next)
    ensures var (q, result) := Processed(s, st.q, round.leasedAt, round.settledAt, round.run);
            result.Success? && Between(s, q, round.settledAt, next)
  {
    hide Inv, Settled, HandleJob, FromJson, ToJson;
    var s1 := Do(s, st, Tick(round.leasedAt));
    var s2 := Do(s, s1, Dequeue(0));
    assert s2 == Delivered(s1, 0);
    assert Run(s, st, [], st);
    ReadableHead(s, st);
    steps := [Tick(round.leasedAt), Dequeue(0)];
    assert [] + [Tick(round.leasedAt)] + [Dequeue(0)] == steps;
    if st.q.main == [] {
      hide Run;
      Push(s, st, [], st, Tick(round.leasedAt));
      Push(s, st, [] + [Tick(round.leasedAt)], s1, Dequeue(0));
      next := s2;
    } else {
      var job := s2.live[0];
      assert s2.live == map[0 := job] && job.startedAt == Some(round.leasedAt);
      var s3 := Do(s, s2, Tick(round.settledAt));
      next := Do(s, s3, Settle(0, round.run));
      assert next == Finished(s, s3, 0, round.run);
      assert next.live == map[];
      hide Run;
      Push(s, st, [], st, Tick(round.leasedAt));
      Push(s, st, [] + [Tick(round.leasedAt)], s1, Dequeue(0));
      Push(s, st, steps, s2, Tick(round.settledAt));
      Push(s, st, steps + [Tick(round.settledAt)], s3, Settle(0, round.run));
      steps := steps + [Tick(round.settledAt)] + [Settle(0, round.run)];
    }
  }

  lemma ReadableHead(s: Settings, st: State)
    requires Inv(s, st)
    ensures st.q.main != [] ==> FromJson(st.q.main[|st.q.main| - 1]).Success?
    ensures ReadablePrefix(st.q.processing) == |st.q.processing|
  {
    hide FromJson;
    if st.q.main != [] {
      assert st.q.main[|st.q.main| - 1] in st.q.main;
    }
    AllReadable(st.q.processing);
  }

  /**
   `run_worker` until shutdown is requested, with no other process in between: no call in it raises, and its passes
   make up a run of the machine that ends in the queues as the loop leaves them.
   */
  method RunWorker(worker: WorkerProcess, rounds: seq<Round>, ghost st: State) returns (ghost turns: seq<seq<Step>>, ghost last: State)
    requires worker.settings.Valid() && Timely(worker.settings, st.now, rounds)
    requires Between(worker.settings, worker.queues.View(), st.now, st)
    modifies worker, worker.queues
    ensures Turned(worker.maintenanceInterval, worker.promoteBatch, old(worker.lastQueueMaintenanceAt), rounds, turns)
    ensures worker.lastQueueMaintenanceAt == LastMaintenance(worker.maintenanceInterval, old(worker.lastQueueMaintenanceAt), rounds)
    ensures Run(worker.settings, st, Flatten(turns), last)
    ensures Inv(worker.settings, last) && last.q == worker.queues.View() && last.live == map[]
  {
    hide Inv, Reclaimed, Promoted, Processed, IsTurn, Turned, DueOrder, Run, Flatten;
    ghost var start, now := worker.lastQueueMaintenanceAt, st.now;
    turns, last := [], st;
    RunStarts(worker.settings, st, worker.maintenanceInterval, worker.promoteBatch, start);
    var i := 0;
    while i < |rounds|
      invariant 0 <= i == |turns| <= |rounds|
      invariant Timely(worker.settings, now, rounds[i..]) && Between(worker.settings, worker.queues.View(), now, last)
      invariant worker.lastQueueMaintenanceAt == LastMaintenance(worker.maintenanceInterval, start, rounds[..i])
      invariant Turned(worker.maintenanceInterval, worker.promoteBatch, start, rounds[..i], turns)
      invariant Run(worker.settings, st, Flatten(turns), last)
    {
      ghost var before, q := worker.lastQueueMaintenanceAt, worker.queues.View();
      var upkeep, due := worker.MaybeRunQueueMaintenance(rounds[i].monotonic, rounds[i].maintainedAt);
      ghost var middle := worker.queues.View();
      var job := worker.ProcessNextJob(rounds[i].leasedAt, rounds[i].settledAt, rounds[i].run);
      assert rounds[i..][1..] == rounds[i + 1..] && rounds[..i + 1][..i] == rounds[..i];
      ReadableHead(worker.settings, last);
      ghost var turn, next := Turn(worker.settings, last, q, rounds[i], rounds[i].monotonic - before >= worker.maintenanceInterval,
                                   worker.promoteBatch, due, middle);
      assert upkeep.Success? && job.Success?;
      TurnedPush(worker.maintenanceInterval, worker.promoteBatch, start, rounds, turns, turn);
      FlattenPush(worker.settings, st, turns, last, turn, next);
      turns, last, now := turns + [turn], next, rounds[i].settledAt;
      i := i + 1;
    }
    assert rounds[..|rounds|] == rounds;
  }

  lemma FlattenPush(s: Settings, st: State, turns: seq<seq<Step>>, middle: State, turn: seq<Step>, last: State)
    requires Run(s, st, Flatten(turns), middle) && Run(s, middle, turn, last)
    ensures Run(s, st, Flatten(turns + [turn]), last)
  {
    hide Run;
    RunConcat(s, st, Flatten(turns), middle, turn, last);
    assert (turns + [turn])[..|turns|] == turns;
  }

  lemma RunStarts(s: Settings, st: State, interval: Time, batch: int, start: Time)
    ensures Run(s, st, Flatten([]), st) && Turned(interval, batch, start, [], [])
  {
  }

  /** One pass, from what its two calls did to the queues. */
  lemma Turn(s: Settings, st: State, q: Queues, round: Round, maintained: bool, batch: int, due: seq<Json>, middle: Queues)
    returns (steps: seq<Step>, next: State)
    requires s.Valid() && Between(s, q, round.maintainedAt, st)
    requires round.maintainedAt <= round.leasedAt <= round.settledAt < round.leasedAt + s.visibilityTimeout * SECOND
    requires if maintained then DueOrder(Reclaimed(s, q, round.maintainedAt).delayed, round.maintainedAt, due)
                                && middle == Promoted(Reclaimed(s, q, round.maintainedAt), due, Some(batch))
             else middle == q
    ensures IsTurn(round, maintained, batch, steps) && Run(s, st, steps, next)
    ensures var (q', result) := Processed(s, middle, round.leasedAt, round.settledAt, round.run);
            result.Success? && Between(s, q', round.settledAt, next)
  {
    hide Inv, Reclaimed, Promoted, Processed, DueOrder;
    var upkeep: seq<Step> := [];
    var ready := st;
    assert Run(s, st, [], st);
    hide Run;
    if maintained {
      ready := Maintained(s, st, round, batch, due);
      upkeep := [Tick(round.maintainedAt), Reclaim, Promote(due, Some(batch))];
    }
    var work;
    work, next := JobDone(s, ready, round);
    RunConcat(s, st, upkeep, ready, work, next);
    steps := upkeep + work;
    assert steps[|upkeep|..] == work;
  }
}

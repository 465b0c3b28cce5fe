/** A queue function whose Redis commands are not interleaved with others does what its specification says as a whole. */
module QueueAlone {
  import opened Clock
  import opened Wrappers
  import opened Jobs
  import opened Backoff
  import opened JobQueue
  import opened Worker
  import opened Leases
  import opened NoLoss

  lemma {:induction false} Extend(s: Settings, first: Sys, cmds: seq<Command>, c: Sys, cmd: Command)
    requires Runs(s, first, cmds, c) && CanDo(c, cmd)
    ensures Runs(s, first, cmds + [cmd], Exec(s, c, cmd))
    decreases |cmds|
  {
    hide CanDo, Exec;
    if cmds == [] {
      assert [cmd][1..] == [];
    } else {
      Extend(s, Exec(s, first, cmds[0]), cmds[1..], c, cmd);
      assert (cmds + [cmd])[1..] == cmds[1..] + [cmd];
    }
  }

  lemma NoCommands(s: Settings, c: Sys)
    ensures Runs(s, c, [], c)
  {
  }

  ghost function Stage(c: Sys, p: nat, proc: Process): Sys {
    c.(procs := c.procs[p := proc])
  }

  lemma LRemHead(entry: Json, list: seq<Json>)
    ensures LRem([entry] + list, entry) == list
  {
    assert ([entry] + list)[1..] == list;
  }

  /** BRPOPLPUSH, LREM, LPUSH make one lease; an unreadable entry stays moved. */
  lemma DequeueAlone(s: Settings, c: Sys, p: nat, now: Time) returns (cmds: seq<Command>, last: Sys)
    requires p !in c.procs && c.q.main != []
    ensures Runs(s, c, cmds, last) && last.enqueued == c.enqueued && last.acked == c.acked
    ensures var (q, result) := Leased(c.q, now);
            && last.q == q
            && last.procs == if result.Success? then c.procs[p := Handling(result.value.value)] else c.procs
  {
    hide Runs, FromJson, ToJson, LRem;
    var raw := c.q.main[|c.q.main| - 1];
    var popped := c.(q := c.q.(main := c.q.main[..|c.q.main| - 1], processing := [raw] + c.q.processing));
    var s1 := Stage(popped, p, Popped(raw));
    assert s1 == Exec(s, c, Pop(p));
    var s2 := Stamped(s1, p, now);
    assert s2 == Exec(s, s1, Command.Stamp(p, now));
    LRemHead(raw, c.q.processing);
    assert s1.procs - {p} == c.procs;
    NoCommands(s, c);
    Extend(s, c, [], c, Pop(p));
    Extend(s, c, [] + [Pop(p)], s1, Command.Stamp(p, now));
    cmds, last := [] + [Pop(p)] + [Command.Stamp(p, now)], s2;
    if FromJson(raw).Success? && p in s2.procs && s2.procs[p].Stamping? {
      Extend(s, c, cmds, s2, PushLease(p));
      cmds, last := cmds + [PushLease(p)], Exec(s, s2, PushLease(p));
    }
  }

  /** LREM, then the ZADD or LPUSH that the outcome calls for. */
  lemma SettleAlone(s: Settings, c: Sys, p: nat, job: Job, run: HandlerRun, now: Time) returns (cmds: seq<Command>, last: Sys)
    requires p in c.procs && c.procs[p] == Handling(job)
    ensures Runs(s, c, cmds, last) && last.procs == c.procs - {p} && last.enqueued == c.enqueued
    ensures last.q == Settled(s, c.q, job, HandleJob(job, run), now)
    ensures last.acked == c.acked + if HandleJob(job, run).Completed? then {job.id} else {}
  {
    hide Runs, FromJson, ToJson, LRem, HandleJob, RetryCopy, FailedCopy;
    var s1 := Settling(s, c, p, run, now);
    assert s1 == Exec(s, c, Command.Settle(p, run, now));
    NoCommands(s, c);
    Extend(s, c, [], c, Command.Settle(p, run, now));
    cmds, last := [] + [Command.Settle(p, run, now)], s1;
    match HandleJob(job, run) {
      case Completed =>
      case UnknownType(message) =>
        Extend(s, c, cmds, s1, PushFailed(p));
        cmds, last := cmds + [PushFailed(p)], Exec(s, s1, PushFailed(p));
      case Raised(message) =>
        var next := if job.attempts < s.maxRetries then AddDelayed(p) else PushFailed(p);
        Extend(s, c, cmds, s1, next);
        cmds, last := cmds + [next], Exec(s, s1, next);
    }
  }

  // ---- the bulk loops ----

  lemma {:induction false} PromotesSome(s: Settings, c: Sys, p: nat, now: Time, due: seq<Json>, k: nat) returns (cmds: seq<Command>)
    requires p !in c.procs && DueOrder(c.q.delayed, now, due) && k <= |due|
    ensures Runs(s, c, cmds, Stage(c.(q := Promoted(c.q, due, Some(k))), p, Promoting(due[k..])))
    decreases k
  {
    hide Runs, Promoted;
    if k == 0 {
      assert Promoted(c.q, due, Some(0)) == c.q by {
        PromotedNone(c.q, due);
      }
      assert due[0..] == due;
      assert Stage(c, p, Promoting(due)) == Exec(s, c, ReadDue(p, now, due));
      NoCommands(s, c);
      Extend(s, c, [], c, ReadDue(p, now, due));
      cmds := [] + [ReadDue(p, now, due)];
    } else {
      cmds := PromotesSome(s, c, p, now, due, k - 1);
      PromotedOneMore(c.q, now, due, k - 1);
      var at := Promoted(c.q, due, Some(k - 1));
      var raw := due[k - 1];
      var s1 := Stage(c.(q := at), p, Promoting(due[k - 1..]));
      assert due[k - 1..][0] == raw && due[k - 1..][1..] == due[k..];
      var s2 := Stage(c.(q := at.(delayed := at.delayed - {raw})), p, PromotingOne(raw, due[k..]));
      assert s2 == Exec(s, s1, TakeDue(p));
      assert Stage(c.(q := Promoted(c.q, due, Some(k))), p, Promoting(due[k..])) == Exec(s, s2, PushPromoted(p));
      Extend(s, c, cmds, s1, TakeDue(p));
      Extend(s, c, cmds + [TakeDue(p)], s2, PushPromoted(p));
      cmds := cmds + [TakeDue(p)] + [PushPromoted(p)];
    }
  }

  /** ZRANGEBYSCORE, then ZREM and LPUSH for each entry up to the limit. */
  lemma PromoteAlone(s: Settings, c: Sys, p: nat, now: Time, due: seq<Json>, limit: Option<int>) returns (cmds: seq<Command>)
    requires p !in c.procs && DueOrder(c.q.delayed, now, due)
    ensures Runs(s, c, cmds, c.(q := Promoted(c.q, due, limit)))
  {
    hide Runs, Reverse;
    var k := Taken(|due|, limit);
    assert Promoted(c.q, due, Some(k)) == Promoted(c.q, due, limit);
    hide Promoted;
    cmds := PromotesSome(s, c, p, now, due, k);
    var s1 := Stage(c.(q := Promoted(c.q, due, limit)), p, Promoting(due[k..]));
    assert s1.procs - {p} == c.procs;
    assert Exec(s, s1, Leave(p)) == c.(q := Promoted(c.q, due, limit));
    Extend(s, c, cmds, s1, Leave(p));
    cmds := cmds + [Leave(p)];
  }

  lemma {:induction false} ReclaimsSome(s: Settings, c: Sys, p: nat, now: Time, k: nat) returns (cmds: seq<Command>)
    requires p !in c.procs && k <= ReadablePrefix(c.q.processing)
    ensures Runs(s, c, cmds, Stage(c.(q := ReclaimedUpTo(s, c.q, now, k)), p, Reclaiming(c.q.processing[k..], now)))
    decreases k
  {
    hide Runs, FromJson, ReclaimedUpTo, LeaseReturned, Returned, LRem, Stripped;
    var entries := c.q.processing;
    if k == 0 {
      ReclaimStart(s, c.q, now);
      assert entries[0..] == entries;
      assert Stage(c, p, Reclaiming(entries, now)) == Exec(s, c, ReadLeases(p, now));
      NoCommands(s, c);
      Extend(s, c, [], c, ReadLeases(p, now));
      cmds := [] + [ReadLeases(p, now)];
    } else {
      cmds := ReclaimsSome(s, c, p, now, k - 1);
      ReclaimStep(s, c.q, now, k - 1);
      assert FromJson(entries[k - 1]).Success?;
      assert entries[k - 1..][0] == entries[k - 1] && entries[k - 1..][1..] == entries[k..];
      cmds := ReclaimsOne(s, c, cmds, c.(q := ReclaimedUpTo(s, c.q, now, k - 1)), p, entries[k - 1..], now);
    }
  }

  /** One iteration, on a lease that is still in the list. */
  lemma ReclaimsOne(s: Settings, first: Sys, cmds: seq<Command>, c: Sys, p: nat, seen: seq<Json>, now: Time)
    returns (more: seq<Command>)
    requires Runs(s, first, cmds, Stage(c, p, Reclaiming(seen, now)))
    requires seen != [] && FromJson(seen[0]).Success? && seen[0] in c.q.processing
    ensures Runs(s, first, more,
                 Stage(c.(q := if StaleEntry(s, seen[0], now) then LeaseReturned(c.q, seen[0]) else c.q), p, Reclaiming(seen[1..], now)))
  {
    hide Runs, FromJson, ToJson, LRem;
    var s1 := Stage(c, p, Reclaiming(seen, now));
    var s2 := LeaseTaken(s, s1, p);
    assert s2 == Exec(s, s1, TakeLease(p));
    Extend(s, first, cmds, s1, TakeLease(p));
    more := cmds + [TakeLease(p)];
    if StaleEntry(s, seen[0], now) {
      assert Stage(c.(q := LeaseReturned(c.q, seen[0])), p, Reclaiming(seen[1..], now)) == Exec(s, s2, PushReclaimed(p));
      Extend(s, first, more, s2, PushReclaimed(p));
      more := more + [PushReclaimed(p)];
    } else {
      assert s2 == Stage(c, p, Reclaiming(seen[1..], now));
    }
  }

  /** LRANGE, then LREM and LPUSH for each stale lease; the scan ends at the first unreadable one. */
  lemma ReclaimAlone(s: Settings, c: Sys, p: nat, now: Time) returns (cmds: seq<Command>)
    requires p !in c.procs
    ensures Runs(s, c, cmds, c.(q := Reclaimed(s, c.q, now)))
  {
    hide Runs, FromJson, ReclaimedUpTo, ReadablePrefix;
    var k := ReadablePrefix(c.q.processing);
    cmds := ReclaimsSome(s, c, p, now, k);
    var q := ReclaimedUpTo(s, c.q, now, k);
    var s1 := Stage(c.(q := q), p, Reclaiming(c.q.processing[k..], now));
    assert s1.procs - {p} == c.procs;
    var last := if k < |c.q.processing| then TakeLease(p) else Leave(p);
    assert k < |c.q.processing| ==> c.q.processing[k..][0] == c.q.processing[k];
    assert Exec(s, s1, last) == c.(q := q);
    Extend(s, c, cmds, s1, last);
    cmds := cmds + [last];
  }

  lemma RequeuesOne(s: Settings, first: Sys, cmds: seq<Command>, c: Sys, p: nat)
    requires Runs(s, first, cmds, Stage(c, p, Requeueing)) && c.q.failed != [] && !Unreadable(c.q)
    ensures Runs(s, first, cmds + [PopFailed(p)] + [PushRequeued(p)], Stage(c.(q := OldestRequeued(c.q)), p, Requeueing))
  {
    hide Runs, FromJson, ToJson;
    var raw := c.q.failed[|c.q.failed| - 1];
    var s1 := Stage(c, p, Requeueing);
    var s2 := Stage(c.(q := c.q.(failed := c.q.failed[..|c.q.failed| - 1])), p, RequeueingOne(raw));
    assert s2 == Exec(s, s1, PopFailed(p));
    assert Stage(c.(q := OldestRequeued(c.q)), p, Requeueing) == Exec(s, s2, PushRequeued(p));
    hide Exec;
    Extend(s, first, cmds, s1, PopFailed(p));
    Extend(s, first, cmds + [PopFailed(p)], s2, PushRequeued(p));
  }

  lemma {:induction false} RequeuesSome(s: Settings, c: Sys, p: nat, n: nat) returns (cmds: seq<Command>)
    requires p !in c.procs && n <= ReadableSuffix(c.q.failed)
    ensures Runs(s, c, cmds, Stage(c.(q := RequeuedTail(c.q, n)), p, Requeueing))
    decreases n
  {
    hide Runs, FromJson, RequeuedTail, OldestRequeued, ReadableSuffix;
    if n == 0 {
      RequeueStart(c.q);
      assert Stage(c, p, Requeueing) == Exec(s, c, StartRequeue(p));
      NoCommands(s, c);
      Extend(s, c, [], c, StartRequeue(p));
      cmds := [] + [StartRequeue(p)];
    } else {
      cmds := RequeuesSome(s, c, p, n - 1);
      RequeueStep(c.q, n - 1);
      RequeuesOne(s, c, cmds, c.(q := RequeuedTail(c.q, n - 1)), p);
      cmds := cmds + [PopFailed(p)] + [PushRequeued(p)];
    }
  }

  /** RPOP and LPUSH, over and over, up to the limit, the end of the list, or an entry that cannot be read. */
  lemma RequeueAlone(s: Settings, c: Sys, p: nat, limit: Option<int>) returns (cmds: seq<Command>)
    requires p !in c.procs
    ensures Runs(s, c, cmds, c.(q := Requeued(c.q, limit)))
  {
    hide Runs, FromJson, RequeuedTail, ReadableSuffix, OldestRequeued;
    var n, k := Taken(|c.q.failed|, limit), ReadableSuffix(c.q.failed);
    if n <= k {
      cmds := RequeuesSome(s, c, p, n);
      var s1 := Stage(c.(q := RequeuedTail(c.q, n)), p, Requeueing);
      assert s1.procs - {p} == c.procs;
      assert Exec(s, s1, Leave(p)) == c.(q := RequeuedTail(c.q, n));
      Extend(s, c, cmds, s1, Leave(p));
      cmds := cmds + [Leave(p)];
    } else {
      cmds := RequeuesSome(s, c, p, k);
      RequeueStep(c.q, k);
      RequeueRaises(s, c, cmds, c.(q := RequeuedTail(c.q, k)), p);
      cmds := cmds + [PopFailed(p)] + [PushRequeued(p)];
    }
  }

  lemma RequeueRaises(s: Settings, first: Sys, cmds: seq<Command>, c: Sys, p: nat)
    requires Runs(s, first, cmds, Stage(c, p, Requeueing)) && Unreadable(c.q) && p !in c.procs
    ensures Runs(s, first, cmds + [PopFailed(p)] + [PushRequeued(p)], c.(q := OldestRequeued(c.q)))
  {
    hide Runs, FromJson, ToJson;
    var raw := c.q.failed[|c.q.failed| - 1];
    var s1 := Stage(c, p, Requeueing);
    var s2 := Stage(c.(q := c.q.(failed := c.q.failed[..|c.q.failed| - 1])), p, RequeueingOne(raw));
    assert s2 == Exec(s, s1, PopFailed(p));
    assert s2.procs - {p} == c.procs;
    assert c.(q := OldestRequeued(c.q)) == Exec(s, s2, PushRequeued(p));
    hide Exec;
    Extend(s, first, cmds, s1, PopFailed(p));
    Extend(s, first, cmds + [PopFailed(p)], s2, PushRequeued(p));
  }

  /**
   The job of a worker that died in its handler is not lost: once its timeout has passed, one undisturbed reclaim puts it
   into main without its stamp, every other field kept.
   */
  lemma DeadHandlersJobReturns(s: Settings, c: Sys, p: nat, now: Time) returns (cmds: seq<Command>, last: Sys)
    requires p in c.procs && c.procs[p].Handling? && ToJson(c.procs[p].job) in c.q.processing
    requires LeaseOver(s, ToJson(c.procs[p].job), now) && ReadablePrefix(c.q.processing) == |c.q.processing|
    ensures Runs(s, Exec(s, c, Command.Die(p)), cmds, last) && last.procs == c.procs - {p}
    ensures ToJson(Unleased(c.procs[p].job)) in last.q.main && ToJson(c.procs[p].job) !in last.q.processing
  {
    hide Runs, FromJson, ToJson, ReadablePrefix, Reclaimed, LeaseOver;
    var dead := Exec(s, c, Command.Die(p));
    cmds := ReclaimAlone(s, dead, p, now);
    last := dead.(q := Reclaimed(s, dead.q, now));
    ReclaimedWhole(s, c.q, now);
    RoundTrip(c.procs[p].job);
  }
}

/**
 Single commands again, now with some order in the clock readings: handlers that end before their visibility timeout are
 never robbed of their entry, so the entry not yet stamped is the only gap.
 */
module CommandTiming {
  import opened Clock
  import opened Wrappers
  import opened Jobs
  import opened Backoff
  import opened JobQueue
  import opened Worker
  import opened Leases
  import opened NoLoss
  import opened CommandExclusivity

  /**
   A reclaimer reads the clock while every running handler is within its visibility timeout, and no worker's reading lags
   a whole timeout behind the latest reading of a reclaimer.
   */
  ghost predicate InTime(s: Settings, c: Sys, cmd: Command, latest: Time) {
    match cmd
    case Stamp(_, now) => latest - now < s.visibilityTimeout * SECOND
    case ReadLeases(_, now) => forall r :: r in c.procs && c.procs[r].Handling? ==> !IsStale(s, c.procs[r].job, now)
    case _ => true
  }

  /** The latest reading of a reclaimer. */
  function Latest(cmd: Command, latest: Time): Time {
    if cmd.ReadLeases? && cmd.now > latest then cmd.now else latest
  }

  ghost predicate Timely(s: Settings, first: Sys, cmds: seq<Command>, latest: Time)
    decreases |cmds|
  {
    cmds == [] || (CanDo(first, cmds[0]) ==>
                     && InTime(s, first, cmds[0], latest)
                     && Timely(s, Exec(s, first, cmds[0]), cmds[1..], Latest(cmds[0], latest)))
  }

  /** One clock for workers and reclaimers, which never runs backwards and passes no running handler's timeout. */
  ghost predicate OneClock(s: Settings, first: Sys, cmds: seq<Command>, clock: Time)
    decreases |cmds|
  {
    cmds == [] || (CanDo(first, cmds[0]) ==>
                     var now := if cmds[0].Stamp? || cmds[0].ReadLeases? then cmds[0].now else clock;
                     && clock <= now
                     && (forall r :: r in first.procs && first.procs[r].Handling? ==> !IsStale(s, first.procs[r].job, now))
                     && OneClock(s, Exec(s, first, cmds[0]), cmds[1..], now))
  }

  lemma {:induction false} OneClockIsTimely(s: Settings, first: Sys, cmds: seq<Command>, clock: Time, latest: Time)
    requires s.Valid() && OneClock(s, first, cmds, clock) && latest <= clock
    ensures Timely(s, first, cmds, latest)
    decreases |cmds|
  {
    hide Exec, CanDo, IsStale;
    if cmds != [] && CanDo(first, cmds[0]) {
      var now := if cmds[0].Stamp? || cmds[0].ReadLeases? then cmds[0].now else clock;
      OneClockIsTimely(s, Exec(s, first, cmds[0]), cmds[1..], now, Latest(cmds[0], latest));
    }
  }

  // ---- the invariant ----

  /** The stamped job a worker holds or handles. */
  ghost function LeaseOf(proc: Process): Option<Job> {
    match proc
    case Stamping(lease) => Some(lease)
    case Handling(job) => Some(job)
    case _ => None
  }

  /** What a reclaimer has still to look at, and the time it read. */
  ghost function ScanOf(proc: Process): Option<(seq<Json>, Time)> {
    match proc
    case Reclaiming(seen, now) => Some((seen, now))
    case ReclaimingOne(_, seen, now) => Some((seen, now))
    case _ => None
  }

  /** If the scan meets the lease, it finds it within its timeout. */
  ghost predicate Spares(s: Settings, scan: (seq<Json>, Time), lease: Job) {
    ToJson(lease) in scan.0 ==> !IsStale(s, lease, scan.1)
  }

  ghost predicate AllSpare(s: Settings, c: Sys, latest: Time) {
    && (forall p :: p in c.procs && ScanOf(c.procs[p]).Some? ==> ScanOf(c.procs[p]).value.1 <= latest)
    && (forall p, r :: p in c.procs && r in c.procs && ScanOf(c.procs[p]).Some? && LeaseOf(c.procs[r]).Some? ==>
          Spares(s, ScanOf(c.procs[p]).value, LeaseOf(c.procs[r]).value))
  }

  /** Process p of the later state has no new lease, and no new scan. */
  ghost predicate NothingNew(c: Sys, c': Sys, p: nat) {
    p in c'.procs ==>
      && (LeaseOf(c'.procs[p]).Some? ==> p in c.procs && LeaseOf(c'.procs[p]) == LeaseOf(c.procs[p]))
      && (ScanOf(c'.procs[p]).Some? ==>
            && p in c.procs && ScanOf(c.procs[p]).Some?
            && ScanOf(c'.procs[p]).value.1 == ScanOf(c.procs[p]).value.1
            && forall raw :: raw in ScanOf(c'.procs[p]).value.0 ==> raw in ScanOf(c.procs[p]).value.0)
  }

  lemma SpareOn(s: Settings, c: Sys, c': Sys, latest: Time)
    requires AllSpare(s, c, latest) && forall p :: NothingNew(c, c', p)
    ensures AllSpare(s, c', latest)
  {
    hide LeaseOf, ScanOf, ToJson, IsStale;
    assert forall p :: p in c'.procs ==> NothingNew(c, c', p);
  }

  lemma SpareAfterRest(s: Settings, c: Sys, cmd: Command, latest: Time)
    requires AllSpare(s, c, latest) && CanDo(c, cmd) && !cmd.Stamp? && !cmd.ReadLeases?
    ensures AllSpare(s, Exec(s, c, cmd), latest)
  {
    hide AllSpare, ToJson, FromJson, LRem, IsStale, StaleEntry, HandleJob, RetryCopy, FailedCopy, Stripped, Rewritten, DueOrder;
    var c' := Exec(s, c, cmd);
    forall p
      ensures NothingNew(c, c', p)
    {
    }
    SpareOn(s, c, c', latest);
  }

  lemma SpareAfterStamp(s: Settings, c: Sys, p: nat, now: Time, latest: Time)
    requires AllSpare(s, c, latest) && CanDo(c, Command.Stamp(p, now)) && latest - now < s.visibilityTimeout * SECOND
    ensures AllSpare(s, Exec(s, c, Command.Stamp(p, now)), latest)
  {
    hide ToJson, FromJson, LRem;
    var c' := Stamped(c, p, now);
    assert forall r :: r in c'.procs && r != p ==> r in c.procs && c'.procs[r] == c.procs[r];
    assert p in c'.procs ==> ScanOf(c'.procs[p]) == None && LeaseOf(c'.procs[p]).value.startedAt == Some(now);
  }

  /** A lease in a hand is not in the list that a reclaimer reads. */
  lemma SpareAfterRead(s: Settings, c: Sys, p: nat, now: Time, latest: Time)
    requires AllSpare(s, c, latest) && AllOnce(c) && CanDo(c, ReadLeases(p, now)) && InTime(s, c, ReadLeases(p, now), latest)
    ensures AllSpare(s, Exec(s, c, ReadLeases(p, now)), Latest(ReadLeases(p, now), latest))
  {
    hide ToJson, IdOf, AllOnce, Once, Count, IsStale;
    var c', scan := Exec(s, c, ReadLeases(p, now)), (c.q.processing, now);
    assert ScanOf(c'.procs[p]) == Some(scan) && LeaseOf(c'.procs[p]) == None;
    forall r | r in c.procs && LeaseOf(c.procs[r]).Some?
      ensures Spares(s, scan, LeaseOf(c.procs[r]).value)
    {
      if c.procs[r].Stamping? {
        InHandOnly(c, r);
      }
    }
  }

  lemma InHandOnly(c: Sys, r: nat)
    requires AllOnce(c) && r in c.procs && c.procs[r].Stamping?
    ensures ToJson(c.procs[r].lease) !in c.q.processing
  {
    hide ToJson, IdOf, Count, HandsOf;
    var lease := c.procs[r].lease;
    IdOfToJson(lease);
    assert Once(c, lease.id);
    OnlyInHand(c, r, lease.id);
    CountAtLeast(c.q, ToJson(lease), lease.id);
  }

  lemma SpareStep(s: Settings, c: Sys, cmd: Command, latest: Time)
    requires AllSpare(s, c, latest) && AllOnce(c) && CanDo(c, cmd) && InTime(s, c, cmd, latest)
    ensures AllSpare(s, Exec(s, c, cmd), Latest(cmd, latest))
  {
    assert cmd.Stamp? ==> latest - cmd.now < s.visibilityTimeout * SECOND;
    hide AllSpare, AllOnce, InTime, Exec, CanDo;
    match cmd
    case Stamp(p, now) => SpareAfterStamp(s, c, p, now, latest);
    case ReadLeases(p, now) => SpareAfterRead(s, c, p, now, latest);
    case _ => SpareAfterRest(s, c, cmd, latest);
  }

  /** So no reclaimer takes the entry of a running handler. */
  lemma SparedNow(s: Settings, c: Sys, cmd: Command, latest: Time)
    requires AllSpare(s, c, latest)
    ensures Keeps(HandlersSpared, s, c, cmd)
  {
    hide ToJson, FromJson, IsStale;
    forall r | r in c.procs && c.procs[r].Handling?
      ensures !Takes(s, c, cmd, ToJson(c.procs[r].job))
    {
      var job := c.procs[r].job;
      if Takes(s, c, cmd, ToJson(job)) {
        IdOfToJson(job);
      }
    }
  }

  // ---- whole runs ----

  ghost predicate AllKept(s: Settings, c: Sys, cmd: Command) {
    forall clause :: Keeps(clause, s, c, cmd)
  }

  lemma KeptInTime(s: Settings, c: Sys, cmd: Command, latest: Time)
    requires AllSpare(s, c, latest) && Keeps(FreshIds, s, c, cmd) && Keeps(PoppedSpared, s, c, cmd)
    ensures AllKept(s, c, cmd)
  {
    SparedNow(s, c, cmd, latest);
    hide Keeps, AllSpare;
    forall clause
      ensures Keeps(clause, s, c, cmd)
    {
      match clause
      case FreshIds =>
      case PoppedSpared =>
      case HandlersSpared =>
    }
  }

  lemma {:induction false} SparedThroughout(s: Settings, first: Sys, cmds: seq<Command>, last: Sys, latest: Time)
    returns (latest': Time)
    requires Good(first) && AllSpare(s, first, latest) && Runs(s, first, cmds, last) && Timely(s, first, cmds, latest)
    requires Throughout(FreshIds, s, first, cmds) && Throughout(PoppedSpared, s, first, cmds)
    ensures Throughout(HandlersSpared, s, first, cmds) && Good(last) && AllSpare(s, last, latest')
    decreases |cmds|
  {
    hide AllSpare, Keeps, Exec, CanDo, Conserved, AllOnce, EntriesThere, InTime;
    latest' := latest;
    if cmds != [] {
      KeptInTime(s, first, cmds[0], latest);
      GoodStep(s, first, cmds[0]);
      SpareStep(s, first, cmds[0], latest);
      latest' := SparedThroughout(s, Exec(s, first, cmds[0]), cmds[1..], last, Latest(cmds[0], latest));
    }
  }

  /**
   Over every timely run of single commands with fresh ids in which reclaimers spare the entries not yet stamped, they
   spare those of running handlers too; so each id has one entry, and no two running handlers have the same job.
   */
  lemma OneEntryInTime(s: Settings, first: Sys, cmds: seq<Command>, last: Sys, latest: Time)
    requires Start(first) && Runs(s, first, cmds, last) && Timely(s, first, cmds, latest)
    requires Throughout(FreshIds, s, first, cmds) && Throughout(PoppedSpared, s, first, cmds)
    ensures Throughout(HandlersSpared, s, first, cmds)
    ensures forall id :: Copies(last, id) == if id in last.enqueued && id !in last.acked then 1 else 0
    ensures forall p, r :: !TwoHandlers(last, p, r)
  {
    hide Runs, Throughout, Timely, Good, IdOf, ToJson, Count, HandsOf;
    GoodStart(first);
    var _ := SparedThroughout(s, first, cmds, last, latest);
    EveryClause(s, first, cmds);
    OneEntryPerId(s, first, cmds, last);
  }

  /**
   After such a run a command with a fresh id leaves handlers exclusive for all runs to come if and only if it is no LREM
   of a reclaimer that takes an entry not yet stamped.
   */
  lemma OnlyGap(s: Settings, first: Sys, cmds: seq<Command>, c: Sys, latest: Time, cmd: Command)
    requires Start(first) && Runs(s, first, cmds, c) && Timely(s, first, cmds, latest)
    requires Throughout(FreshIds, s, first, cmds) && Throughout(PoppedSpared, s, first, cmds)
    requires CanDo(c, cmd) && Keeps(FreshIds, s, c, cmd)
    ensures StaysExclusive(s, Exec(s, c, cmd)) <==> Keeps(PoppedSpared, s, c, cmd)
  {
    hide Runs, Throughout, Timely, Good, Keeps, Exec, CanDo, StaysExclusive;
    GoodStart(first);
    var latest' := SparedThroughout(s, first, cmds, c, latest);
    SparedNow(s, c, cmd, latest');
    ExclusiveIff(s, first, cmds, c, cmd);
  }

  // ---- the gap is there in timely runs ----

  /** All leases were stamped at time 0. */
  ghost predicate StampedAtZero(c: Sys) {
    forall r :: r in c.procs && LeaseOf(c.procs[r]).Some? ==> LeaseOf(c.procs[r]).value.startedAt == Some(0)
  }

  lemma ZeroStep(s: Settings, c: Sys, cmd: Command)
    requires StampedAtZero(c) && CanDo(c, cmd) && AtZero(cmd)
    ensures StampedAtZero(Exec(s, c, cmd))
  {
    hide ToJson, FromJson, LRem, StaleEntry, HandleJob, RetryCopy, FailedCopy, Stripped, Rewritten, DueOrder;
  }

  lemma {:induction false} ZeroIsOneClock(s: Settings, first: Sys, cmds: seq<Command>)
    requires s.Valid() && StampedAtZero(first) && forall cmd :: cmd in cmds ==> AtZero(cmd)
    ensures OneClock(s, first, cmds, 0)
    decreases |cmds|
  {
    hide Exec, CanDo;
    if cmds != [] && CanDo(first, cmds[0]) {
      assert cmds[0] in cmds && forall cmd :: cmd in cmds[1..] ==> cmd in cmds;
      ZeroStep(s, first, cmds[0]);
      ZeroIsOneClock(s, Exec(s, first, cmds[0]), cmds[1..]);
    }
  }

  /** With one clock and handlers that are all within their timeout, an entry taken before its stamp starts a second handler. */
  lemma GapInTime(s: Settings, job: Job) returns (first: Sys, cmds: seq<Command>, last: Sys)
    requires s.Valid() && job.startedAt.None?
    ensures Start(first) && RunsWith(CLAUSES - {PoppedSpared}, s, first, cmds, last) && OneClock(s, first, cmds, 0)
    ensures TwoHandlers(last, 1, 3)
  {
    hide RunsWith, OneClock;
    first, cmds, last := TwoHandlersWithout(PoppedSpared, s, job);
    ZeroIsOneClock(s, first, cmds);
  }
}

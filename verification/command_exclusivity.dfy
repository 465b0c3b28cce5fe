/**
 When single Redis commands interleave, is a job still in one place only? It is as long as ids are fresh and no reclaimer
 takes the entry of a worker between its BRPOPLPUSH and its stamp, nor that of a handler that is still running.
 */
module CommandExclusivity {
  import opened Clock
  import opened Wrappers
  import opened Jobs
  import opened Backoff
  import opened JobQueue
  import opened Worker
  import opened QueueWeights
  import opened Leases
  import opened NoLoss
  import opened QueueAlone
  import opened UnusedKeys

  /** The entry a process holds outside every structure. */
  ghost function HandOf(proc: Process): Option<Json> {
    match proc
    case Stamping(lease) => Some(ToJson(lease))
    case Delaying(copy, _) => Some(ToJson(copy))
    case Burying(copy) => Some(ToJson(copy))
    case PromotingOne(raw, _) => Some(raw)
    case ReclaimingOne(raw, _, _) => Some(raw)
    case RequeueingOne(raw) => Some(raw)
    case _ => None
  }

  /** The entry of the processing list that a worker has popped or works under. */
  ghost function EntryOf(proc: Process): Option<Json> {
    match proc
    case Popped(raw) => Some(raw)
    case Handling(job) => Some(ToJson(job))
    case _ => None
  }

  ghost predicate Holds(proc: Process, id: string) {
    HandOf(proc).Some? && IdOf(HandOf(proc).value) == Some(id)
  }

  ghost function HandsOf(procs: map<nat, Process>, id: string): set<nat> {
    set p | p in procs && Holds(procs[p], id)
  }

  /** How many entries carry the id, in the structures and in hands. */
  ghost function Copies(c: Sys, id: string): int {
    Count(id, c.q) + |HandsOf(c.procs, id)|
  }

  // ---- what the commands do to the count ----

  lemma CountPush(q: Queues, raw: Json, id: string)
    ensures Count(id, q.(main := [raw] + q.main)) == Count(id, q) + Tally(id)(raw)
    ensures Count(id, q.(processing := [raw] + q.processing)) == Count(id, q) + Tally(id)(raw)
    ensures Count(id, q.(failed := [raw] + q.failed)) == Count(id, q) + Tally(id)(raw)
  {
    hide IdOf;
    SumPush(Tally(id), raw, q.main);
    SumPush(Tally(id), raw, q.processing);
    SumPush(Tally(id), raw, q.failed);
  }

  lemma CountRemove(q: Queues, raw: Json, id: string)
    requires raw in q.processing
    ensures Count(id, q.(processing := LRem(q.processing, raw))) == Count(id, q) - Tally(id)(raw)
  {
    hide IdOf;
    SumLRem(Tally(id), q.processing, raw);
  }

  lemma CountPop(q: Queues, id: string)
    ensures q.main != [] ==>
              Count(id, q.(main := q.main[..|q.main| - 1])) == Count(id, q) - Tally(id)(q.main[|q.main| - 1])
    ensures q.failed != [] ==>
              Count(id, q.(failed := q.failed[..|q.failed| - 1])) == Count(id, q) - Tally(id)(q.failed[|q.failed| - 1])
  {
    hide IdOf;
    if q.main != [] {
      SumPop(Tally(id), q.main);
    }
    if q.failed != [] {
      SumPop(Tally(id), q.failed);
    }
  }

  lemma CountDelayed(q: Queues, raw: Json, score: Time, id: string)
    ensures raw in q.delayed ==> Count(id, q.(delayed := q.delayed - {raw})) == Count(id, q) - Tally(id)(raw)
    ensures raw !in q.delayed ==> Count(id, q.(delayed := q.delayed[raw := score])) == Count(id, q) + Tally(id)(raw)
  {
    hide IdOf;
    if raw in q.delayed {
      SumSetRemove(Tally(id), q.delayed.Keys, raw);
      assert (q.delayed - {raw}).Keys == q.delayed.Keys - {raw};
    } else {
      var keys := q.delayed[raw := score].Keys;
      assert keys == q.delayed.Keys + {raw};
      SumSetRemove(Tally(id), keys, raw);
      assert keys - {raw} == q.delayed.Keys;
    }
  }

  /** An entry of a structure counts. */
  lemma CountAtLeast(q: Queues, raw: Json, id: string)
    requires IdOf(raw) == Some(id)
    ensures raw in q.main || raw in q.processing || raw in q.delayed || raw in q.failed ==> Count(id, q) >= 1
    ensures forall other :: raw in q.main && other in q.processing && IdOf(other) == Some(id) ==> Count(id, q) >= 2
  {
    hide IdOf;
    TallyList(id, q.main);
    TallyList(id, q.processing);
    TallySet(id, q.delayed.Keys);
    TallyList(id, q.failed);
    assert raw in q.main ==> raw in Elements(q.main);
    assert forall other :: other in q.processing ==> other in Elements(q.processing);
    assert raw in q.failed ==> raw in Elements(q.failed);
  }

  // ---- what they do to the hands ----

  lemma SizeWithout(s: set<nat>, p: nat)
    ensures |s| == |s - {p}| + if p in s then 1 else 0
  {
    if p in s {
      assert s == s - {p} + {p};
    } else {
      assert s == s - {p};
    }
  }

  lemma HandsElsewhere(procs: map<nat, Process>, others: map<nat, Process>, p: nat, id: string)
    requires forall r :: r != p ==> (r in procs <==> r in others) && (r in procs ==> procs[r] == others[r])
    ensures HandsOf(procs, id) - {p} == HandsOf(others, id) - {p}
  {
    hide Holds;
  }

  lemma HandsAfter(procs: map<nat, Process>, p: nat, proc: Process, id: string)
    ensures |HandsOf(procs[p := proc], id)|
         == |HandsOf(procs, id)| - (if p in procs && Holds(procs[p], id) then 1 else 0) + if Holds(proc, id) then 1 else 0
  {
    hide Holds;
    HandsElsewhere(procs, procs[p := proc], p, id);
    SizeWithout(HandsOf(procs, id), p);
    SizeWithout(HandsOf(procs[p := proc], id), p);
  }

  lemma HandsWithout(procs: map<nat, Process>, p: nat, id: string)
    requires p in procs
    ensures |HandsOf(procs - {p}, id)| == |HandsOf(procs, id)| - if Holds(procs[p], id) then 1 else 0
  {
    hide Holds;
    HandsElsewhere(procs, procs - {p}, p, id);
    SizeWithout(HandsOf(procs, id), p);
    SizeWithout(HandsOf(procs - {p}, id), p);
  }

  // ---- the invariant ----

  ghost predicate Once(c: Sys, id: string) {
    Copies(c, id) + (if id in c.acked then 1 else 0) == if id in c.enqueued then 1 else 0
  }

  /** Every enqueued id is in one place: one entry, in a structure or a hand, or one acknowledgement. */
  ghost predicate AllOnce(c: Sys) {
    forall id :: Once(c, id)
  }

  /** A worker's entry is in the processing list, and no two workers have entries of one id. */
  ghost predicate EntriesThere(c: Sys) {
    && (forall p :: p in c.procs && EntryOf(c.procs[p]).Some? ==> EntryOf(c.procs[p]).value in c.q.processing)
    && (forall p, r :: p in c.procs && r in c.procs && p != r && EntryOf(c.procs[p]).Some? && EntryOf(c.procs[r]).Some? ==>
          IdOf(EntryOf(c.procs[p]).value) != IdOf(EntryOf(c.procs[r]).value))
  }

  /** The command is an LREM of a reclaimer that removes this entry. */
  ghost predicate Takes(s: Settings, c: Sys, cmd: Command, raw: Json) {
    && cmd.TakeLease? && cmd.p in c.procs && c.procs[cmd.p].Reclaiming? && c.procs[cmd.p].seen != []
    && c.procs[cmd.p].seen[0] == raw && StaleEntry(s, raw, c.procs[cmd.p].now) && raw in c.q.processing
  }

  datatype Clause = FreshIds | PoppedSpared | HandlersSpared

  const CLAUSES: set<Clause> := {FreshIds, PoppedSpared, HandlersSpared}

  ghost predicate Keeps(clause: Clause, s: Settings, c: Sys, cmd: Command) {
    match clause
    case FreshIds => cmd.Enqueue? ==> cmd.job.id !in c.enqueued
    case PoppedSpared => forall r :: r in c.procs && c.procs[r].Popped? ==> !Takes(s, c, cmd, c.procs[r].raw)
    case HandlersSpared => forall r :: r in c.procs && c.procs[r].Handling? ==> !Takes(s, c, cmd, ToJson(c.procs[r].job))
  }

  ghost predicate Throughout(clause: Clause, s: Settings, first: Sys, cmds: seq<Command>)
    decreases |cmds|
  {
    cmds == [] || (CanDo(first, cmds[0]) ==>
                     Keeps(clause, s, first, cmds[0]) && Throughout(clause, s, Exec(s, first, cmds[0]), cmds[1..]))
  }

  // ---- steps that move one entry ----

  /** An entry goes from a structure into the hand of p, under the same id. */
  lemma TakenUp(c: Sys, c': Sys, p: nat, proc: Process, gone: Json, put: Json, id: string)
    requires Once(c, id) && p in c.procs && HandOf(c.procs[p]) == None && HandOf(proc) == Some(put) && IdOf(put) == IdOf(gone)
    requires c'.procs == c.procs[p := proc] && c'.enqueued == c.enqueued && c'.acked == c.acked
    requires Count(id, c'.q) == Count(id, c.q) - Tally(id)(gone)
    ensures Once(c', id)
  {
    hide IdOf, Count, HandsOf, HandOf;
    HandsAfter(c.procs, p, proc, id);
  }

  /** An entry goes from the hand of p into a structure, under the same id. */
  lemma PutBack(c: Sys, c': Sys, p: nat, gone: Json, put: Json, id: string)
    requires Once(c, id) && p in c.procs && HandOf(c.procs[p]) == Some(gone) && IdOf(put) == IdOf(gone)
    requires c'.procs == c.procs - {p} || (p in c'.procs && c'.procs == c.procs[p := c'.procs[p]] && HandOf(c'.procs[p]) == None)
    requires c'.enqueued == c.enqueued && c'.acked == c.acked && Count(id, c'.q) == Count(id, c.q) + Tally(id)(put)
    ensures Once(c', id)
  {
    hide IdOf, Count, HandsOf, HandOf;
    if c'.procs == c.procs - {p} {
      HandsWithout(c.procs, p, id);
    } else {
      HandsAfter(c.procs, p, c'.procs[p], id);
    }
  }

  /** Nothing moves between structures and hands. */
  lemma NothingMoves(c: Sys, c': Sys, p: nat, id: string)
    requires Once(c, id) && (p in c.procs ==> HandOf(c.procs[p]) == None)
    requires (p in c.procs && c'.procs == c.procs - {p})
             || (p in c'.procs && c'.procs == c.procs[p := c'.procs[p]] && HandOf(c'.procs[p]) == None)
    requires c'.enqueued == c.enqueued && c'.acked == c.acked && Count(id, c'.q) == Count(id, c.q)
    ensures Once(c', id)
  {
    hide IdOf, Count, HandsOf, HandOf;
    if p in c.procs && c'.procs == c.procs - {p} {
      HandsWithout(c.procs, p, id);
    } else {
      HandsAfter(c.procs, p, c'.procs[p], id);
    }
  }

  // ---- one place per id, command by command ----

  ghost predicate Good(c: Sys) {
    Conserved(c) && AllOnce(c) && EntriesThere(c)
  }

  lemma HandReads(c: Sys, p: nat)
    requires Conserved(c) && p in c.procs && HandOf(c.procs[p]).Some?
    ensures FromJson(HandOf(c.procs[p]).value).Success?
  {
    hide FromJson, ToJson;
    assert HandOf(c.procs[p]).value in InHand(c.procs[p]);
    HandIsEntry(c, p);
  }

  lemma PoppedReads(c: Sys, p: nat)
    requires Conserved(c) && p in c.procs && c.procs[p].Popped?
    ensures FromJson(c.procs[p].raw).Success?
  {
    hide FromJson, ToJson;
    assert Known(c, c.procs[p]);
  }

  /** An id in a hand is nowhere else. */
  lemma OnlyInHand(c: Sys, p: nat, id: string)
    requires Once(c, id) && p in c.procs && Holds(c.procs[p], id)
    ensures Count(id, c.q) == 0 && HandsOf(c.procs, id) == {p} && id !in c.acked
  {
    hide IdOf, HandOf, Count, Holds;
    CountNonNegative(id, c.q);
    assert p in HandsOf(c.procs, id);
    SizeWithout(HandsOf(c.procs, id), p);
  }

  lemma OnceEnqueue(s: Settings, c: Sys, job: Job, id: string)
    requires Once(c, id) && job.id !in c.enqueued && c.acked <= c.enqueued
    ensures Once(Exec(s, c, Command.Enqueue(job)), id)
  {
    hide IdOf, ToJson, Count, HandsOf;
    IdOfToJson(job);
    CountPush(c.q, ToJson(job), id);
  }

  lemma OncePop(s: Settings, c: Sys, p: nat, id: string)
    requires Once(c, id) && CanDo(c, Pop(p))
    ensures Once(Exec(s, c, Pop(p)), id)
  {
    hide IdOf, Count, HandsOf, Once;
    var raw := c.q.main[|c.q.main| - 1];
    CountPop(c.q, id);
    CountPush(c.q.(main := c.q.main[..|c.q.main| - 1]), raw, id);
    NothingMoves(c, Exec(s, c, Pop(p)), p, id);
  }

  lemma OnceStamp(s: Settings, c: Sys, p: nat, now: Time, id: string)
    requires Good(c) && CanDo(c, Command.Stamp(p, now))
    ensures Once(Exec(s, c, Command.Stamp(p, now)), id)
  {
    hide IdOf, FromJson, ToJson, LRem, Count, HandsOf, Once, Conserved, EntriesThere;
    var raw := c.procs[p].raw;
    PoppedReads(c, p);
    WorkerEntry(c, p);
    assert Once(c, id);
    hide AllOnce;
    IdOfLease(raw, now);
    CountRemove(c.q, raw, id);
    var lease := FromJson(raw).value.WithProcessingStartedAt(now);
    var c' := Stamped(c, p, now);
    if ToJson(lease) == raw {
      NothingMoves(c, c', p, id);
    } else {
      TakenUp(c, c', p, Stamping(lease), raw, ToJson(lease), id);
    }
  }

  lemma OnceAck(c: Sys, c': Sys, p: nat, job: Job, id: string)
    requires AllOnce(c) && p in c.procs && c.procs[p] == Handling(job) && ToJson(job) in c.q.processing
    requires c' == c.(q := c.q.(processing := LRem(c.q.processing, ToJson(job))), procs := c.procs - {p}, acked := c.acked + {job.id})
    ensures Once(c', id)
  {
    hide IdOf, ToJson, LRem, Count, HandsOf;
    assert Once(c, id);
    IdOfToJson(job);
    CountRemove(c.q, ToJson(job), id);
    CountAtLeast(c.q, ToJson(job), job.id);
    HandsWithout(c.procs, p, id);
  }

  lemma OnceRetire(c: Sys, c': Sys, p: nat, job: Job, proc: Process, copy: Job, id: string)
    requires Once(c, id) && p in c.procs && c.procs[p] == Handling(job) && ToJson(job) in c.q.processing
    requires HandOf(proc) == Some(ToJson(copy)) && copy.id == job.id
    requires c' == c.(q := c.q.(processing := LRem(c.q.processing, ToJson(job))), procs := c.procs[p := proc])
    ensures Once(c', id)
  {
    assert HandOf(c.procs[p]) == None;
    hide IdOf, ToJson, LRem, Count, HandsOf, Once, HandOf;
    IdOfToJson(job);
    IdOfToJson(copy);
    CountRemove(c.q, ToJson(job), id);
    TakenUp(c, c', p, proc, ToJson(job), ToJson(copy), id);
  }

  /** The entry of a worker is in the processing list. */
  lemma WorkerEntry(c: Sys, p: nat)
    requires EntriesThere(c) && p in c.procs
    ensures EntryOf(c.procs[p]).Some? ==> EntryOf(c.procs[p]).value in c.q.processing
  {
    hide IdOf, ToJson;
  }

  lemma CopiesOfId(job: Job, outcome: Outcome, now: Time)
    ensures !outcome.Completed? ==>
              FailedCopy(job, Some(outcome.message), now).id == job.id == RetryCopy(job, outcome.message).id
  {
  }

  lemma OnceSettle(s: Settings, c: Sys, p: nat, run: HandlerRun, now: Time, id: string)
    requires Good(c) && CanDo(c, Command.Settle(p, run, now))
    ensures Once(Exec(s, c, Command.Settle(p, run, now)), id)
  {
    hide IdOf, FromJson, ToJson, LRem, Once, Conserved, EntriesThere, HandleJob, RetryCopy, FailedCopy;
    var job := c.procs[p].job;
    WorkerEntry(c, p);
    assert Once(c, id);
    var c' := Settling(s, c, p, run, now);
    assert c' == Exec(s, c, Command.Settle(p, run, now));
    CopiesOfId(job, HandleJob(job, run), now);
    hide Exec, AllOnce;
    match HandleJob(job, run) {
      case Completed =>
        OnceAck(c, c', p, job, id);
      case UnknownType(message) =>
        var copy := FailedCopy(job, Some(message), now);
        OnceRetire(c, c', p, job, Burying(copy), copy, id);
      case Raised(message) =>
        var copy := if job.attempts < s.maxRetries then RetryCopy(job, message) else FailedCopy(job, Some(message), now);
        OnceRetire(c, c', p, job, if job.attempts < s.maxRetries then Delaying(copy, RetryTime(s, job, now)) else Burying(copy), copy, id);
    }
  }

  lemma OnceTakeDue(s: Settings, c: Sys, p: nat, id: string)
    requires Once(c, id) && CanDo(c, TakeDue(p))
    ensures Once(Exec(s, c, TakeDue(p)), id)
  {
    hide IdOf, Count, HandsOf, Once;
    var raw, rest := c.procs[p].due[0], c.procs[p].due[1..];
    CountDelayed(c.q, raw, 0, id);
    var c' := Exec(s, c, TakeDue(p));
    if raw in c.q.delayed {
      TakenUp(c, c', p, PromotingOne(raw, rest), raw, raw, id);
    } else {
      NothingMoves(c, c', p, id);
    }
  }

  lemma OnceTakeLease(s: Settings, c: Sys, p: nat, id: string)
    requires Once(c, id) && CanDo(c, TakeLease(p))
    ensures Once(Exec(s, c, TakeLease(p)), id)
  {
    hide IdOf, Count, HandsOf, Once, FromJson, ToJson, LRem;
    var raw, rest, now := c.procs[p].seen[0], c.procs[p].seen[1..], c.procs[p].now;
    var c' := LeaseTaken(s, c, p);
    assert c' == Exec(s, c, TakeLease(p));
    if FromJson(raw).Success? && StaleEntry(s, raw, now) && raw in c.q.processing {
      CountRemove(c.q, raw, id);
      TakenUp(c, c', p, ReclaimingOne(raw, rest, now), raw, raw, id);
    } else {
      NothingMoves(c, c', p, id);
    }
  }

  lemma OncePopFailed(s: Settings, c: Sys, p: nat, id: string)
    requires Once(c, id) && CanDo(c, PopFailed(p))
    ensures Once(Exec(s, c, PopFailed(p)), id)
  {
    hide IdOf, Count, HandsOf, Once;
    var raw := c.q.failed[|c.q.failed| - 1];
    CountPop(c.q, id);
    TakenUp(c, Exec(s, c, PopFailed(p)), p, RequeueingOne(raw), raw, raw, id);
  }

  lemma OnceAddDelayed(s: Settings, c: Sys, p: nat, id: string)
    requires AllOnce(c) && CanDo(c, AddDelayed(p))
    ensures Once(Exec(s, c, AddDelayed(p)), id)
  {
    hide IdOf, ToJson, Count, HandsOf;
    var copy := c.procs[p].copy;
    var raw := ToJson(copy);
    IdOfToJson(copy);
    assert Once(c, copy.id) && Once(c, id);
    OnlyInHand(c, p, copy.id);
    CountAtLeast(c.q, raw, copy.id);
    CountDelayed(c.q, raw, c.procs[p].score, id);
    PutBack(c, Exec(s, c, AddDelayed(p)), p, raw, raw, id);
  }

  lemma OncePush(s: Settings, c: Sys, cmd: Command, id: string)
    requires Conserved(c) && Once(c, id) && CanDo(c, cmd)
    requires cmd.PushLease? || cmd.PushFailed? || cmd.PushPromoted? || cmd.PushReclaimed? || cmd.PushRequeued?
    ensures Once(Exec(s, c, cmd), id)
  {
    hide IdOf, FromJson, ToJson, Count, HandsOf, Once, Conserved, Stripped, Rewritten;
    var c', p := Exec(s, c, cmd), cmd.p;
    HandReads(c, p);
    var gone := HandOf(c.procs[p]).value;
    RewrittenKeepsId(gone);
    match cmd {
      case PushReclaimed(_) =>
        CountPush(c.q, Stripped(gone), id);
        PutBack(c, c', p, gone, Stripped(gone), id);
      case PushRequeued(_) =>
        CountPush(c.q, Rewritten(gone), id);
        PutBack(c, c', p, gone, Rewritten(gone), id);
      case _ =>
        CountPush(c.q, gone, id);
        PutBack(c, c', p, gone, gone, id);
    }
  }

  lemma OnceIdle(s: Settings, c: Sys, cmd: Command, id: string)
    requires Once(c, id) && CanDo(c, cmd)
    requires cmd.ReadDue? || cmd.ReadLeases? || cmd.StartRequeue? || cmd.Leave? || cmd.Die?
    ensures Once(Exec(s, c, cmd), id)
  {
    hide IdOf, Count, HandsOf, Once, DueOrder;
    NothingMoves(c, Exec(s, c, cmd), cmd.p, id);
  }

  lemma OnceStep(s: Settings, c: Sys, cmd: Command, id: string)
    requires Good(c) && CanDo(c, cmd) && Keeps(FreshIds, s, c, cmd)
    ensures Once(Exec(s, c, cmd), id)
  {
    assert Once(c, id) && c.acked <= c.enqueued;
    hide Good, Conserved, Once, Exec;
    match cmd
    case Enqueue(job) => OnceEnqueue(s, c, job, id);
    case Pop(p) => OncePop(s, c, p, id);
    case Stamp(p, now) => OnceStamp(s, c, p, now, id);
    case Settle(p, run, now) => OnceSettle(s, c, p, run, now, id);
    case TakeDue(p) => OnceTakeDue(s, c, p, id);
    case TakeLease(p) => OnceTakeLease(s, c, p, id);
    case PopFailed(p) => OncePopFailed(s, c, p, id);
    case AddDelayed(p) => OnceAddDelayed(s, c, p, id);
    case ReadDue(_, _, _) => OnceIdle(s, c, cmd, id);
    case ReadLeases(_, _) => OnceIdle(s, c, cmd, id);
    case StartRequeue(_) => OnceIdle(s, c, cmd, id);
    case Leave(_) => OnceIdle(s, c, cmd, id);
    case Die(_) => OnceIdle(s, c, cmd, id);
    case _ => OncePush(s, c, cmd, id);
  }

  // ---- a worker's entry stays where it is ----

  /** The entries of all workers but p are still in the processing list. */
  ghost predicate OthersThere(c: Sys, c': Sys, p: nat) {
    && (forall r :: r in c'.procs && r != p ==> r in c.procs && c'.procs[r] == c.procs[r])
    && (forall r :: r in c.procs && r != p && EntryOf(c.procs[r]).Some? ==> EntryOf(c.procs[r]).value in c'.q.processing)
  }

  lemma ThereWithout(c: Sys, c': Sys, p: nat)
    requires EntriesThere(c) && OthersThere(c, c', p)
    requires p in c'.procs && EntryOf(c'.procs[p]).Some? ==>
               p in c.procs && EntryOf(c'.procs[p]) == EntryOf(c.procs[p]) && EntryOf(c'.procs[p]).value in c'.q.processing
    ensures EntriesThere(c')
  {
    hide EntryOf, IdOf;
  }

  /** Worker p gets an entry whose id no other worker's entry has. */
  lemma ThereWith(c: Sys, c': Sys, p: nat, raw: Json)
    requires EntriesThere(c) && OthersThere(c, c', p)
    requires p in c'.procs && EntryOf(c'.procs[p]) == Some(raw) && raw in c'.q.processing
    requires forall r :: r in c.procs && r != p && EntryOf(c.procs[r]).Some? ==> IdOf(EntryOf(c.procs[r]).value) != IdOf(raw)
    ensures EntriesThere(c')
  {
    hide EntryOf, IdOf;
  }

  /** An entry that no other worker has goes. */
  lemma OthersKeep(c: Sys, c': Sys, p: nat, raw: Json)
    requires EntriesThere(c)
    requires forall r :: r in c'.procs && r != p ==> r in c.procs && c'.procs[r] == c.procs[r]
    requires c'.q.processing == LRem(c.q.processing, raw)
    requires forall r :: r in c.procs && r != p && EntryOf(c.procs[r]).Some? ==> EntryOf(c.procs[r]).value != raw
    ensures OthersThere(c, c', p)
  {
    hide EntryOf, IdOf, LRem;
    forall r | r in c.procs && r != p && EntryOf(c.procs[r]).Some?
      ensures EntryOf(c.procs[r]).value in c'.q.processing
    {
      LRemMembers(c.q.processing, raw, EntryOf(c.procs[r]).value);
    }
  }

  /** A worker's own entry is no other worker's. */
  lemma OwnEntry(c: Sys, p: nat, raw: Json)
    requires EntriesThere(c) && p in c.procs && EntryOf(c.procs[p]) == Some(raw)
    ensures forall r :: r in c.procs && r != p && EntryOf(c.procs[r]).Some? ==> EntryOf(c.procs[r]).value != raw
  {
    hide EntryOf, IdOf;
  }

  lemma ThereAfterPop(s: Settings, c: Sys, p: nat)
    requires Good(c) && CanDo(c, Pop(p))
    ensures EntriesThere(Exec(s, c, Pop(p)))
  {
    hide IdOf, FromJson, ToJson, Count, HandsOf;
    var raw, c' := c.q.main[|c.q.main| - 1], Exec(s, c, Pop(p));
    assert raw in c.q.main && raw in Entries(c);
    IdOfReadable(raw);
    var id := IdOf(raw).value;
    assert Once(c, id);
    CountAtLeast(c.q, raw, id);
    ThereWith(c, c', p, raw);
  }

  lemma IdOfReadable(raw: Json)
    requires FromJson(raw).Success?
    ensures IdOf(raw) == Some(FromJson(raw).value.id)
  {
  }

  lemma ThereAfterStamp(s: Settings, c: Sys, p: nat, now: Time)
    requires EntriesThere(c) && CanDo(c, Command.Stamp(p, now))
    ensures EntriesThere(Exec(s, c, Command.Stamp(p, now)))
  {
    hide IdOf, FromJson, ToJson, LRem;
    var raw, c' := c.procs[p].raw, Exec(s, c, Command.Stamp(p, now));
    OwnEntry(c, p, raw);
    if c'.q.processing == LRem(c.q.processing, raw) {
      OthersKeep(c, c', p, raw);
    }
    ThereWithout(c, c', p);
  }

  lemma ThereAfterPushLease(s: Settings, c: Sys, p: nat)
    requires AllOnce(c) && EntriesThere(c) && CanDo(c, PushLease(p))
    ensures EntriesThere(Exec(s, c, PushLease(p)))
  {
    hide IdOf, ToJson, Count, HandsOf;
    var job, c' := c.procs[p].lease, Exec(s, c, PushLease(p));
    IdOfToJson(job);
    assert Once(c, job.id);
    OnlyInHand(c, p, job.id);
    forall r | r in c.procs && r != p && EntryOf(c.procs[r]).Some?
      ensures IdOf(EntryOf(c.procs[r]).value) != IdOf(ToJson(job))
    {
      var raw := EntryOf(c.procs[r]).value;
      if IdOf(raw) == Some(job.id) {
        CountAtLeast(c.q, raw, job.id);
      }
    }
    ThereWith(c, c', p, ToJson(job));
  }

  lemma ThereAfterSettle(s: Settings, c: Sys, p: nat, run: HandlerRun, now: Time)
    requires EntriesThere(c) && CanDo(c, Command.Settle(p, run, now))
    ensures EntriesThere(Exec(s, c, Command.Settle(p, run, now)))
  {
    hide IdOf, ToJson, LRem, HandleJob, RetryCopy, FailedCopy;
    var raw, c' := ToJson(c.procs[p].job), Settling(s, c, p, run, now);
    OwnEntry(c, p, raw);
    OthersKeep(c, c', p, raw);
    ThereWithout(c, c', p);
  }

  lemma ThereAfterTakeLease(s: Settings, c: Sys, p: nat)
    requires EntriesThere(c) && CanDo(c, TakeLease(p))
    requires Keeps(PoppedSpared, s, c, TakeLease(p)) && Keeps(HandlersSpared, s, c, TakeLease(p))
    ensures EntriesThere(Exec(s, c, TakeLease(p)))
  {
    hide IdOf, FromJson, ToJson, LRem, StaleEntry;
    var raw, c' := c.procs[p].seen[0], LeaseTaken(s, c, p);
    if StaleEntry(s, raw, c.procs[p].now) && raw in c.q.processing && FromJson(raw).Success? {
      OthersKeep(c, c', p, raw);
    }
    ThereWithout(c, c', p);
  }

  lemma ThereAfterRest(s: Settings, c: Sys, cmd: Command)
    requires EntriesThere(c) && CanDo(c, cmd)
    requires !cmd.Pop? && !cmd.Stamp? && !cmd.PushLease? && !cmd.Settle? && !cmd.TakeLease?
    ensures EntriesThere(Exec(s, c, cmd))
  {
    hide IdOf, FromJson, ToJson, LRem, Stripped, Rewritten, DueOrder;
    var c' := Exec(s, c, cmd);
    if cmd.Enqueue? {
      assert c'.procs == c.procs;
    } else {
      ThereWithout(c, c', cmd.p);
    }
  }

  lemma ThereStep(s: Settings, c: Sys, cmd: Command)
    requires Good(c) && CanDo(c, cmd) && forall clause :: Keeps(clause, s, c, cmd)
    ensures EntriesThere(Exec(s, c, cmd))
  {
    assert AllOnce(c) && EntriesThere(c);
    hide Good, AllOnce, EntriesThere, Keeps, Exec;
    match cmd
    case Pop(p) => ThereAfterPop(s, c, p);
    case Stamp(p, now) => ThereAfterStamp(s, c, p, now);
    case PushLease(p) => ThereAfterPushLease(s, c, p);
    case Settle(p, run, now) => ThereAfterSettle(s, c, p, run, now);
    case TakeLease(p) =>
      assert Keeps(PoppedSpared, s, c, cmd) && Keeps(HandlersSpared, s, c, cmd);
      ThereAfterTakeLease(s, c, p);
    case _ => ThereAfterRest(s, c, cmd);
  }

  lemma GoodStep(s: Settings, c: Sys, cmd: Command)
    requires Good(c) && CanDo(c, cmd) && forall clause :: Keeps(clause, s, c, cmd)
    ensures Good(Exec(s, c, cmd))
  {
    assert Conserved(c) && Keeps(FreshIds, s, c, cmd);
    hide Keeps, Exec, Once, Conserved, EntriesThere, CanDo;
    ConservedExec(s, c, cmd);
    ThereStep(s, c, cmd);
    forall id {
      OnceStep(s, c, cmd, id);
    }
  }

  // ---- whole runs ----

  lemma {:induction false} GoodRun(s: Settings, first: Sys, cmds: seq<Command>, last: Sys)
    requires Good(first) && Runs(s, first, cmds, last) && forall clause :: Throughout(clause, s, first, cmds)
    ensures Good(last)
    decreases |cmds|
  {
    hide Good, Keeps, Exec, CanDo;
    if cmds != [] {
      forall clause
        ensures Keeps(clause, s, first, cmds[0]) && Throughout(clause, s, Exec(s, first, cmds[0]), cmds[1..])
      {
        assert Throughout(clause, s, first, cmds);
      }
      GoodStep(s, first, cmds[0]);
      GoodRun(s, Exec(s, first, cmds[0]), cmds[1..], last);
    }
  }

  lemma NothingYet(c: Sys, id: string)
    requires Start(c)
    ensures Once(c, id)
  {
    hide IdOf, Holds;
    assert HandsOf(c.procs, id) == {};
  }

  lemma GoodStart(c: Sys)
    requires Start(c)
    ensures Good(c)
  {
    hide Once, Known;
    forall id {
      NothingYet(c, id);
    }
    assert Entries(c) == {};
  }

  ghost predicate TwoHandlers(c: Sys, p: nat, r: nat) {
    p in c.procs && r in c.procs && p != r && c.procs[p].Handling? && c.procs[r].Handling? && c.procs[p].job.id == c.procs[r].job.id
  }

  lemma GoodIsExclusive(c: Sys, p: nat, r: nat)
    requires Good(c)
    ensures !TwoHandlers(c, p, r)
  {
    hide IdOf, ToJson, Count, HandsOf, Once, Conserved;
    if TwoHandlers(c, p, r) {
      IdOfToJson(c.procs[p].job);
      IdOfToJson(c.procs[r].job);
    }
  }

  /**
   Over every run of single commands that keeps the three clauses, each enqueued id has one entry, in a structure or in a
   hand, until it is acknowledged and none after, and no two running handlers have the same job.
   */
  lemma OneEntryPerId(s: Settings, first: Sys, cmds: seq<Command>, last: Sys)
    requires Start(first) && Runs(s, first, cmds, last) && forall clause :: Throughout(clause, s, first, cmds)
    ensures forall id :: Copies(last, id) == if id in last.enqueued && id !in last.acked then 1 else 0
    ensures last.acked <= last.enqueued
    ensures forall p, r :: !TwoHandlers(last, p, r)
  {
    hide Runs, Throughout, IdOf, ToJson, Count, HandsOf;
    GoodStart(first);
    GoodRun(s, first, cmds, last);
    forall id
      ensures Copies(last, id) == if id in last.enqueued && id !in last.acked then 1 else 0
    {
      assert Once(last, id);
    }
    forall p, r
      ensures !TwoHandlers(last, p, r)
    {
      GoodIsExclusive(last, p, r);
    }
  }

  // ---- no clause can be spared ----

  /** A run that keeps these clauses. */
  ghost predicate RunsWith(kept: set<Clause>, s: Settings, first: Sys, cmds: seq<Command>, last: Sys) {
    Runs(s, first, cmds, last) && forall clause :: clause in kept ==> Throughout(clause, s, first, cmds)
  }

  lemma {:induction false} ThroughoutMore(clause: Clause, s: Settings, first: Sys, cmds: seq<Command>, c: Sys, cmd: Command)
    requires Runs(s, first, cmds, c) && Throughout(clause, s, first, cmds) && Keeps(clause, s, c, cmd)
    ensures Throughout(clause, s, first, cmds + [cmd])
    decreases |cmds|
  {
    hide Keeps, Exec, CanDo;
    if cmds == [] {
      assert [] + [cmd] == [cmd] && [cmd][1..] == [];
    } else {
      ThroughoutMore(clause, s, Exec(s, first, cmds[0]), cmds[1..], c, cmd);
      assert (cmds + [cmd])[1..] == cmds[1..] + [cmd];
    }
  }

  lemma Goes(kept: set<Clause>, s: Settings, first: Sys, cmds: seq<Command>, c: Sys, cmd: Command)
    requires RunsWith(kept, s, first, cmds, c) && CanDo(c, cmd)
    requires forall clause :: clause in kept ==> Keeps(clause, s, c, cmd)
    ensures RunsWith(kept, s, first, cmds + [cmd], Exec(s, c, cmd))
  {
    hide Keeps, Exec, CanDo, Runs, Throughout;
    Extend(s, first, cmds, c, cmd);
    forall clause | clause in kept
      ensures Throughout(clause, s, first, cmds + [cmd])
    {
      ThroughoutMore(clause, s, first, cmds, c, cmd);
    }
  }

  lemma StampChanges(job: Job, now: Time)
    requires job.startedAt.None?
    ensures ToJson(job.WithProcessingStartedAt(now)) != ToJson(job)
    ensures FromJson(ToJson(job)) == Success(job)
    ensures Stripped(ToJson(job)) == ToJson(job) == Stripped(ToJson(job.WithProcessingStartedAt(now)))
    ensures FromJson(ToJson(job.WithProcessingStartedAt(now))).Success?
  {
    hide FromJson, ToJson;
    var lease := job.WithProcessingStartedAt(now);
    if ToJson(lease) == ToJson(job) {
      ToJsonInjective(lease, job);
    }
    IdOfToJson(job);
    IdOfToJson(lease);
    assert lease.WithoutProcessingStartedAt() == job == job.WithoutProcessingStartedAt();
  }

  /** The state once p has stamped the entry it had popped. */
  ghost function Started(c: Sys, p: nat, job: Job, now: Time): Sys {
    var lease := job.WithProcessingStartedAt(now);
    c.(q := c.q.(processing := [ToJson(lease)] + LRem(c.q.processing, ToJson(job))), procs := c.procs[p := Handling(lease)])
  }

  /** Worker p stamps the entry it has popped and starts the handler. */
  lemma Starts(kept: set<Clause>, s: Settings, first: Sys, cmds: seq<Command>, c: Sys, p: nat, job: Job, now: Time)
    requires RunsWith(kept, s, first, cmds, c) && job.startedAt.None? && p in c.procs && c.procs[p] == Popped(ToJson(job))
    ensures RunsWith(kept, s, first, cmds + [Command.Stamp(p, now)] + [PushLease(p)], Started(c, p, job, now))
  {
    hide RunsWith, FromJson, ToJson, LRem;
    StampChanges(job, now);
    var lease := job.WithProcessingStartedAt(now);
    var stamped := Stage(c.(q := c.q.(processing := LRem(c.q.processing, ToJson(job)))), p, Stamping(lease));
    assert Exec(s, c, Command.Stamp(p, now)) == stamped;
    assert Exec(s, stamped, PushLease(p)) == Started(c, p, job, now);
    hide Exec;
    Goes(kept, s, first, cmds, c, Command.Stamp(p, now));
    Goes(kept, s, first, cmds + [Command.Stamp(p, now)], stamped, PushLease(p));
  }

  ghost function PoppedBy(c: Sys, p: nat): Sys
    requires c.q.main != []
  {
    var raw := c.q.main[|c.q.main| - 1];
    c.(q := c.q.(main := c.q.main[..|c.q.main| - 1], processing := [raw] + c.q.processing), procs := c.procs[p := Popped(raw)])
  }

  /** Worker p dequeues the oldest entry and starts the handler. */
  lemma Dequeues(kept: set<Clause>, s: Settings, first: Sys, cmds: seq<Command>, c: Sys, p: nat, job: Job)
    requires RunsWith(kept, s, first, cmds, c) && job.startedAt.None? && p !in c.procs
    requires c.q.main != [] && c.q.main[|c.q.main| - 1] == ToJson(job)
    ensures RunsWith(kept, s, first, cmds + [Pop(p)] + [Command.Stamp(p, 0)] + [PushLease(p)],
                    Started(PoppedBy(c, p), p, job, 0))
  {
    hide RunsWith, FromJson, ToJson, LRem;
    assert Exec(s, c, Pop(p)) == PoppedBy(c, p);
    Goes(kept, s, first, cmds, c, Pop(p));
    hide Exec;
    Starts(kept, s, first, cmds + [Pop(p)], PoppedBy(c, p), p, job, 0);
  }

  /** The state once reclaimer 2 has returned the only entry of processing. */
  ghost function Back(c: Sys, job: Job, now: Time): Sys {
    c.(q := c.q.(main := [ToJson(job)] + c.q.main, processing := []), procs := c.procs[2 := Reclaiming([], now)])
  }

  lemma Reclaims(kept: set<Clause>, s: Settings, first: Sys, cmds: seq<Command>, c: Sys, job: Job, now: Time)
    requires RunsWith(kept, s, first, cmds, c) && 2 !in c.procs && |c.q.processing| == 1
    requires StaleEntry(s, c.q.processing[0], now) && Stripped(c.q.processing[0]) == ToJson(job)
    requires forall clause :: clause in kept ==> Keeps(clause, s, Stage(c, 2, Reclaiming(c.q.processing, now)), TakeLease(2))
    ensures RunsWith(kept, s, first, cmds + [ReadLeases(2, now)] + [TakeLease(2)] + [PushReclaimed(2)], Back(c, job, now))
  {
    hide RunsWith, FromJson, ToJson, IsStale, Stripped;
    var raw := c.q.processing[0];
    var reading := Stage(c, 2, Reclaiming(c.q.processing, now));
    assert c.q.processing[1..] == [] && c.q.processing == [raw];
    var taken := Stage(c.(q := c.q.(processing := [])), 2, ReclaimingOne(raw, [], now));
    assert Exec(s, c, ReadLeases(2, now)) == reading;
    assert Exec(s, reading, TakeLease(2)) == taken;
    assert Exec(s, taken, PushReclaimed(2)) == Back(c, job, now);
    hide Exec, StaleEntry, Back;
    Goes(kept, s, first, cmds, c, ReadLeases(2, now));
    Goes(kept, s, first, cmds + [ReadLeases(2, now)], reading, TakeLease(2));
    Goes(kept, s, first, cmds + [ReadLeases(2, now)] + [TakeLease(2)], taken, PushReclaimed(2));
  }

  /** The state with one more job. */
  ghost function Filed(c: Sys, job: Job): Sys {
    c.(q := c.q.(main := [ToJson(job)] + c.q.main), enqueued := c.enqueued + {job.id})
  }

  lemma Enqueues(kept: set<Clause>, s: Settings, first: Sys, cmds: seq<Command>, c: Sys, job: Job)
    requires RunsWith(kept, s, first, cmds, c) && (FreshIds in kept ==> job.id !in c.enqueued)
    ensures RunsWith(kept, s, first, cmds + [Command.Enqueue(job)], Filed(c, job))
  {
    hide RunsWith, ToJson;
    Goes(kept, s, first, cmds, c, Command.Enqueue(job));
  }

  /** Worker 1 runs a handler of the job, and the next entry to be popped is one of the same job. */
  ghost predicate SecondDue(c: Sys, job: Job) {
    && c.q.main == [ToJson(job)] && 3 !in c.procs
    && 1 in c.procs && c.procs[1].Handling? && c.procs[1].job.id == job.id
  }

  lemma SameIdTwice(s: Settings, first: Sys, job: Job) returns (cmds: seq<Command>, c: Sys)
    requires Start(first) && job.startedAt.None?
    ensures RunsWith(CLAUSES - {FreshIds}, s, first, cmds, c) && SecondDue(c, job)
  {
    hide RunsWith, ToJson, LRem;
    Nothing(CLAUSES - {FreshIds}, s, first);
    Enqueues(CLAUSES - {FreshIds}, s, first, [], first, job);
    var one := Filed(first, job);
    cmds := [] + [Command.Enqueue(job)];
    Enqueues(CLAUSES - {FreshIds}, s, first, cmds, one, job);
    var two := Filed(one, job);
    cmds := cmds + [Command.Enqueue(job)];
    Dequeues(CLAUSES - {FreshIds}, s, first, cmds, two, 1, job);
    cmds := cmds + [Pop(1)] + [Command.Stamp(1, 0)] + [PushLease(1)];
    c := Started(PoppedBy(two, 1), 1, job, 0);
  }

  /** Nobody dies, and the clock says 0. */
  ghost predicate AtZero(cmd: Command) {
    !cmd.Die? && (cmd.ReadLeases? || cmd.Stamp? ==> cmd.now == 0)
  }

  lemma TakenBeforeStamp(s: Settings, first: Sys, job: Job) returns (cmds: seq<Command>, c: Sys)
    requires Start(first) && job.startedAt.None?
    ensures RunsWith(CLAUSES - {PoppedSpared}, s, first, cmds, c) && SecondDue(c, job)
    ensures forall cmd :: cmd in cmds ==> AtZero(cmd)
  {
    hide RunsWith, ToJson, LRem;
    Nothing(CLAUSES - {PoppedSpared}, s, first);
    Enqueues(CLAUSES - {PoppedSpared}, s, first, [], first, job);
    var one := Filed(first, job);
    cmds := [] + [Command.Enqueue(job)];
    var popped := PoppedBy(one, 1);
    assert Exec(s, one, Pop(1)) == popped;
    Goes(CLAUSES - {PoppedSpared}, s, first, cmds, one, Pop(1));
    hide Exec;
    cmds := cmds + [Pop(1)];
    StaleUnstamped(s, job);
    hide StaleEntry;
    assert popped.q.processing == [ToJson(job)];
    Reclaims(CLAUSES - {PoppedSpared}, s, first, cmds, popped, job, 0);
    cmds := cmds + [ReadLeases(2, 0)] + [TakeLease(2)] + [PushReclaimed(2)];
    var back := Back(popped, job, 0);
    Starts(CLAUSES - {PoppedSpared}, s, first, cmds, back, 1, job, 0);
    cmds := cmds + [Command.Stamp(1, 0)] + [PushLease(1)];
    c := Started(back, 1, job, 0);
  }

  lemma TakenFromHandler(s: Settings, first: Sys, job: Job) returns (cmds: seq<Command>, c: Sys)
    requires Start(first) && job.startedAt.None?
    ensures RunsWith(CLAUSES - {HandlersSpared}, s, first, cmds, c) && SecondDue(c, job)
  {
    hide RunsWith, ToJson;
    Nothing(CLAUSES - {HandlersSpared}, s, first);
    Enqueues(CLAUSES - {HandlersSpared}, s, first, [], first, job);
    var one := Filed(first, job);
    cmds := [] + [Command.Enqueue(job)];
    Dequeues(CLAUSES - {HandlersSpared}, s, first, cmds, one, 1, job);
    cmds := cmds + [Pop(1)] + [Command.Stamp(1, 0)] + [PushLease(1)];
    var started := Started(PoppedBy(one, 1), 1, job, 0);
    LRemHead(ToJson(job), []);
    hide LRem;
    var lease := ToJson(job.WithProcessingStartedAt(0));
    assert PoppedBy(one, 1).q.processing == [ToJson(job)] + [];
    assert started.q.processing == [lease];
    StaleLater(s, job);
    hide StaleEntry, Stripped;
    var now := s.visibilityTimeout * SECOND;
    Reclaims(CLAUSES - {HandlersSpared}, s, first, cmds, started, job, now);
    cmds := cmds + [ReadLeases(2, now)] + [TakeLease(2)] + [PushReclaimed(2)];
    c := Back(started, job, now);
  }

  /**
   Whichever clause is dropped, some run that keeps the other two ends with two running handlers of one job. A reclaimer
   that reads a popped entry before its stamp does it while no time passes and nobody dies.
   */
  lemma TwoHandlersWithout(dropped: Clause, s: Settings, job: Job) returns (first: Sys, cmds: seq<Command>, last: Sys)
    requires job.startedAt.None?
    ensures Start(first) && RunsWith(CLAUSES - {dropped}, s, first, cmds, last) && TwoHandlers(last, 1, 3)
    ensures dropped == PoppedSpared ==> forall cmd :: cmd in cmds ==> AtZero(cmd)
  {
    hide RunsWith, ToJson;
    first := Sys(Queues([], [], map[], []), map[], {}, {});
    var c;
    match dropped {
      case FreshIds => cmds, c := SameIdTwice(s, first, job);
      case PoppedSpared => cmds, c := TakenBeforeStamp(s, first, job);
      case HandlersSpared => cmds, c := TakenFromHandler(s, first, job);
    }
    Dequeues(CLAUSES - {dropped}, s, first, cmds, c, 3, job);
    cmds := cmds + [Pop(3)] + [Command.Stamp(3, 0)] + [PushLease(3)];
    last := Started(PoppedBy(c, 3), 3, job, 0);
  }

  lemma Nothing(kept: set<Clause>, s: Settings, c: Sys)
    ensures RunsWith(kept, s, c, [], c)
  {
  }

  lemma StaleUnstamped(s: Settings, job: Job)
    requires job.startedAt.None?
    ensures StaleEntry(s, ToJson(job), 0) && Stripped(ToJson(job)) == ToJson(job)
  {
    hide FromJson, ToJson;
    StampChanges(job, 0);
  }

  lemma StaleLater(s: Settings, job: Job)
    requires job.startedAt.None?
    ensures var lease := ToJson(job.WithProcessingStartedAt(0));
            StaleEntry(s, lease, s.visibilityTimeout * SECOND) && Stripped(lease) == ToJson(job)
  {
    hide FromJson, ToJson;
    StampChanges(job, 0);
    IdOfToJson(job.WithProcessingStartedAt(0));
  }

  // ---- exactly when ----

  /** Workers that do nothing but pop take everything from main up to its newest entry. */
  lemma {:induction false} PopsDown(s: Settings, first: Sys, cmds: seq<Command>, c: Sys, r: nat) returns (more: seq<Command>, c': Sys)
    requires RunsWith(CLAUSES, s, first, cmds, c) && c.q.main != [] && r in c.procs
    ensures RunsWith(CLAUSES, s, first, more, c') && c'.q.main == [c.q.main[0]]
    ensures r in c'.procs && c'.procs[r] == c.procs[r]
    decreases |c.q.main|
  {
    hide RunsWith;
    if |c.q.main| == 1 {
      more, c' := cmds, c;
    } else {
      var p := UnusedKey(c.procs.Keys);
      assert Exec(s, c, Pop(p)) == PoppedBy(c, p);
      Goes(CLAUSES, s, first, cmds, c, Pop(p));
      more, c' := PopsDown(s, first, cmds + [Pop(p)], PoppedBy(c, p), r);
    }
  }

  /** A second entry of a running handler's job in main ends in a second handler. */
  lemma SecondHandler(s: Settings, first: Sys, cmds: seq<Command>, c: Sys, r: nat, job: Job)
    returns (more: seq<Command>, last: Sys, p: nat)
    requires RunsWith(CLAUSES, s, first, cmds, c) && r in c.procs && c.procs[r].Handling? && c.procs[r].job.id == job.id
    requires c.q.main != [] && c.q.main[0] == ToJson(job) && job.startedAt.None?
    ensures RunsWith(CLAUSES, s, first, more, last) && TwoHandlers(last, r, p)
  {
    hide RunsWith, ToJson, LRem;
    var down;
    more, down := PopsDown(s, first, cmds, c, r);
    p := UnusedKey(down.procs.Keys);
    Dequeues(CLAUSES, s, first, more, down, p, job);
    more := more + [Pop(p)] + [Command.Stamp(p, 0)] + [PushLease(p)];
    last := Started(PoppedBy(down, p), p, job, 0);
  }

  /** The worker that popped the entry goes on to its handler, whether the entry is still there or not. */
  lemma GoesOn(s: Settings, first: Sys, cmds: seq<Command>, c: Sys, r: nat) returns (more: seq<Command>, c': Sys)
    requires RunsWith(CLAUSES, s, first, cmds, c) && r in c.procs && c.procs[r].Popped? && FromJson(c.procs[r].raw).Success?
    ensures RunsWith(CLAUSES, s, first, more, c') && c'.q.main == c.q.main
    ensures r in c'.procs && c'.procs[r].Handling? && c'.procs[r].job.id == FromJson(c.procs[r].raw).value.id
  {
    hide RunsWith, FromJson, ToJson, LRem;
    var stamped := Stamped(c, r, 0);
    assert Exec(s, c, Command.Stamp(r, 0)) == stamped;
    Goes(CLAUSES, s, first, cmds, c, Command.Stamp(r, 0));
    more, c' := cmds + [Command.Stamp(r, 0)], stamped;
    if stamped.procs[r].Stamping? {
      Goes(CLAUSES, s, first, more, stamped, PushLease(r));
      more, c' := more + [PushLease(r)], Exec(s, stamped, PushLease(r));
    }
  }

  /** No run on from here that keeps the clauses has two handlers of one job. */
  ghost predicate StaysExclusive(s: Settings, c: Sys) {
    forall cmds, last, p, r :: RunsWith(CLAUSES, s, c, cmds, last) ==> !TwoHandlers(last, p, r)
  }

  lemma TakenAnyway(s: Settings, c: Sys, cmd: Command, r: nat)
    requires CanDo(c, cmd) && r in c.procs && EntryOf(c.procs[r]).Some? && Takes(s, c, cmd, EntryOf(c.procs[r]).value)
    ensures !StaysExclusive(s, Exec(s, c, cmd))
  {
    hide RunsWith, FromJson, ToJson, LRem, IsStale;
    var raw, p := EntryOf(c.procs[r]).value, cmd.p;
    assert FromJson(raw).Success?;
    var job := FromJson(raw).value.WithoutProcessingStartedAt();
    var first := Exec(s, c, cmd);
    assert first.procs[p] == ReclaimingOne(raw, c.procs[p].seen[1..], c.procs[p].now) && first.procs[r] == c.procs[r];
    var back := Exec(s, first, PushReclaimed(p));
    assert back.q.main == [ToJson(job)] + first.q.main && back.procs[r] == c.procs[r];
    Nothing(CLAUSES, s, first);
    Goes(CLAUSES, s, first, [], first, PushReclaimed(p));
    hide Exec, CanDo, Takes;
    var cmds, on := [] + [PushReclaimed(p)], back;
    if c.procs[r].Popped? {
      cmds, on := GoesOn(s, first, cmds, back, r);
    } else {
      IdOfToJson(c.procs[r].job);
    }
    var last, q;
    cmds, last, q := SecondHandler(s, first, cmds, on, r, job);
  }

  /**
   After any run that keeps the clauses, a command with a fresh id leaves handlers exclusive for all runs to come if and
   only if it is no LREM of a reclaimer that takes the entry of a worker about to stamp it or of a running handler.
   */
  lemma ExclusiveIff(s: Settings, first: Sys, cmds: seq<Command>, c: Sys, cmd: Command)
    requires Start(first) && RunsWith(CLAUSES, s, first, cmds, c) && CanDo(c, cmd) && Keeps(FreshIds, s, c, cmd)
    ensures StaysExclusive(s, Exec(s, c, cmd)) <==> Keeps(PoppedSpared, s, c, cmd) && Keeps(HandlersSpared, s, c, cmd)
  {
    hide Runs, Throughout, Exec, CanDo, Good, ToJson, Takes;
    GoodStart(first);
    EveryClause(s, first, cmds);
    GoodRun(s, first, cmds, c);
    if Keeps(PoppedSpared, s, c, cmd) && Keeps(HandlersSpared, s, c, cmd) {
      hide Keeps;
      GoodStep(s, c, cmd);
      StaysGood(s, Exec(s, c, cmd));
    } else if !Keeps(PoppedSpared, s, c, cmd) {
      var r :| r in c.procs && c.procs[r].Popped? && Takes(s, c, cmd, c.procs[r].raw);
      TakenAnyway(s, c, cmd, r);
    } else {
      var r :| r in c.procs && c.procs[r].Handling? && Takes(s, c, cmd, ToJson(c.procs[r].job));
      TakenAnyway(s, c, cmd, r);
    }
  }

  lemma EveryClause(s: Settings, c: Sys, cmds: seq<Command>)
    requires forall clause :: clause in CLAUSES ==> Throughout(clause, s, c, cmds)
    ensures forall clause :: Throughout(clause, s, c, cmds)
  {
    hide Throughout;
    forall clause
      ensures clause in CLAUSES
    {
      match clause
      case FreshIds =>
      case PoppedSpared =>
      case HandlersSpared =>
    }
  }

  lemma StaysGood(s: Settings, c: Sys)
    requires Good(c)
    ensures StaysExclusive(s, c)
  {
    hide Runs, Throughout, Good;
    forall cmds, last, p, r | RunsWith(CLAUSES, s, c, cmds, last)
      ensures !TwoHandlers(last, p, r)
    {
      EveryClause(s, c, cmds);
      GoodRun(s, c, cmds, last);
      GoodIsExclusive(last, p, r);
    }
  }
}

/**
 The queue at the granularity of single Redis commands. Any number of processes, each between two
 commands of some queue function, interleave freely; clocks may say anything. A process may die only while
 a handler runs. An entry a process has taken out of one structure and not yet put into another is in its hand.
 */
module NoLoss {
  import opened Clock
  import opened Wrappers
  import opened Jobs
  import opened Backoff
  import opened JobQueue
  import opened Worker
  import opened Leases

  /** Where a process is, with the local variables it still needs. */
  datatype Process =
    | Popped(raw: Json)                                    // after BRPOPLPUSH
    | Stamping(lease: Job)                                 // after LREM of the unstamped entry
    | Handling(job: Job)                                   // running the handler
    | Delaying(copy: Job, score: Time)                     // schedule_retry after LREM
    | Burying(copy: Job)                                   // move_job_to_failed_queue after LREM
    | Promoting(due: seq<Json>)                            // between two iterations
    | PromotingOne(raw: Json, due: seq<Json>)              // after ZREM
    | Reclaiming(seen: seq<Json>, now: Time)               // between two iterations
    | ReclaimingOne(raw: Json, seen: seq<Json>, now: Time) // after LREM
    | Requeueing                                           // between two iterations
    | RequeueingOne(raw: Json)                             // after RPOP

  /** `enqueued` and `acked` are history. */
  datatype Sys = Sys(q: Queues, procs: map<nat, Process>, enqueued: set<string>, acked: set<string>)

  datatype Command =
    | Enqueue(job: Job)
    | Pop(p: nat)
    | Stamp(p: nat, now: Time)
    | PushLease(p: nat)
    | Settle(p: nat, run: HandlerRun, now: Time)
    | AddDelayed(p: nat)
    | PushFailed(p: nat)
    | ReadDue(p: nat, now: Time, due: seq<Json>)
    | TakeDue(p: nat)
    | PushPromoted(p: nat)
    | ReadLeases(p: nat, now: Time)
    | TakeLease(p: nat)
    | PushReclaimed(p: nat)
    | StartRequeue(p: nat)
    | PopFailed(p: nat)
    | PushRequeued(p: nat)
    | Leave(p: nat)
    | Die(p: nat)

  ghost predicate CanDo(c: Sys, cmd: Command) {
    match cmd
    case Enqueue(_) => true
    case Pop(p) => p !in c.procs && c.q.main != []
    case Stamp(p, _) => p in c.procs && c.procs[p].Popped?
    case PushLease(p) => p in c.procs && c.procs[p].Stamping?
    case Settle(p, _, _) => p in c.procs && c.procs[p].Handling?
    case AddDelayed(p) => p in c.procs && c.procs[p].Delaying?
    case PushFailed(p) => p in c.procs && c.procs[p].Burying?
    case ReadDue(p, now, due) => p !in c.procs && DueOrder(c.q.delayed, now, due)
    case TakeDue(p) => p in c.procs && c.procs[p].Promoting? && c.procs[p].due != []
    case PushPromoted(p) => p in c.procs && c.procs[p].PromotingOne?
    case ReadLeases(p, _) => p !in c.procs
    case TakeLease(p) => p in c.procs && c.procs[p].Reclaiming? && c.procs[p].seen != []
    case PushReclaimed(p) => p in c.procs && c.procs[p].ReclaimingOne?
    case StartRequeue(p) => p !in c.procs
    case PopFailed(p) => p in c.procs && c.procs[p].Requeueing? && c.q.failed != []
    case PushRequeued(p) => p in c.procs && c.procs[p].RequeueingOne?
    case Leave(p) => p in c.procs && (c.procs[p].Promoting? || c.procs[p].Reclaiming? || c.procs[p].Requeueing?)
    case Die(p) => p in c.procs && c.procs[p].Handling?
  }

  ghost function Exec(s: Settings, c: Sys, cmd: Command): Sys
    requires CanDo(c, cmd)
  {
    match cmd
    case Enqueue(job) => c.(q := Enqueued(c.q, job), enqueued := c.enqueued + {job.id})
    case Pop(p) =>
      var raw := c.q.main[|c.q.main| - 1];
      c.(q := c.q.(main := c.q.main[..|c.q.main| - 1], processing := [raw] + c.q.processing),
         procs := c.procs[p := Popped(raw)])
    case Stamp(p, now) => Stamped(c, p, now)
    case PushLease(p) =>
      var lease := c.procs[p].lease;
      c.(q := c.q.(processing := [ToJson(lease)] + c.q.processing), procs := c.procs[p := Handling(lease)])
    case Settle(p, run, now) => Settling(s, c, p, run, now)
    case AddDelayed(p) =>
      c.(q := c.q.(delayed := c.q.delayed[ToJson(c.procs[p].copy) := c.procs[p].score]), procs := c.procs - {p})
    case PushFailed(p) =>
      c.(q := c.q.(failed := [ToJson(c.procs[p].copy)] + c.q.failed), procs := c.procs - {p})
    case ReadDue(p, _, due) => c.(procs := c.procs[p := Promoting(due)])
    case TakeDue(p) =>
      var raw, rest := c.procs[p].due[0], c.procs[p].due[1..];
      if raw in c.q.delayed then
        c.(q := c.q.(delayed := c.q.delayed - {raw}), procs := c.procs[p := PromotingOne(raw, rest)])
      else
        c.(procs := c.procs[p := Promoting(rest)])
    case PushPromoted(p) =>
      c.(q := c.q.(main := [c.procs[p].raw] + c.q.main), procs := c.procs[p := Promoting(c.procs[p].due)])
    case ReadLeases(p, now) => c.(procs := c.procs[p := Reclaiming(c.q.processing, now)])
    case TakeLease(p) => LeaseTaken(s, c, p)
    case PushReclaimed(p) =>
      c.(q := c.q.(main := [Stripped(c.procs[p].raw)] + c.q.main),
         procs := c.procs[p := Reclaiming(c.procs[p].seen, c.procs[p].now)])
    case StartRequeue(p) => c.(procs := c.procs[p := Requeueing])
    case PopFailed(p) =>
      var raw := c.q.failed[|c.q.failed| - 1];
      c.(q := c.q.(failed := c.q.failed[..|c.q.failed| - 1]), procs := c.procs[p := RequeueingOne(raw)])
    case PushRequeued(p) =>
      // an entry that cannot be read is gone, and the operator's call raises
      if FromJson(c.procs[p].raw).Failure? then c.(procs := c.procs - {p})
      else c.(q := c.q.(main := [Rewritten(c.procs[p].raw)] + c.q.main), procs := c.procs[p := Requeueing])
    case Leave(p) => c.(procs := c.procs - {p})
    case Die(p) => c.(procs := c.procs - {p})
  }

  /** dequeue_job after BRPOPLPUSH: LREM the unstamped entry, unless the stamp changes nothing. */
  ghost function Stamped(c: Sys, p: nat, now: Time): Sys
    requires p in c.procs && c.procs[p].Popped?
  {
    var raw := c.procs[p].raw;
    match FromJson(raw)
    case Failure(_) => c.(procs := c.procs - {p})
    case Success(job) =>
      var lease := job.WithProcessingStartedAt(now);
      if ToJson(lease) == raw then
        c.(procs := c.procs[p := Handling(lease)])
      else
        c.(q := c.q.(processing := LRem(c.q.processing, raw)), procs := c.procs[p := Stamping(lease)])
  }

  /** The first command of ack_job, schedule_retry or move_job_to_failed_queue. */
  ghost function Settling(s: Settings, c: Sys, p: nat, run: HandlerRun, now: Time): Sys
    requires p in c.procs && c.procs[p].Handling?
  {
    var job := c.procs[p].job;
    var removed := c.q.(processing := LRem(c.q.processing, ToJson(job)));
    match HandleJob(job, run)
    case Completed => c.(q := removed, procs := c.procs - {p}, acked := c.acked + {job.id})
    case UnknownType(message) => c.(q := removed, procs := c.procs[p := Burying(FailedCopy(job, Some(message), now))])
    case Raised(message) =>
      if job.attempts < s.maxRetries then
        c.(q := removed, procs := c.procs[p := Delaying(RetryCopy(job, message), RetryTime(s, job, now))])
      else
        c.(q := removed, procs := c.procs[p := Burying(FailedCopy(job, Some(message), now))])
  }

  /** A worker acknowledges exactly when the job is done, and otherwise holds the copy that it will put back. */
  lemma AcknowledgedIff(s: Settings, c: Sys, p: nat, run: HandlerRun, now: Time)
    requires s.Valid() && p in c.procs && c.procs[p].Handling?
    ensures var c', job := Exec(s, c, Command.Settle(p, run, now)), c.procs[p].job;
            && c'.q == c.q.(processing := LRem(c.q.processing, ToJson(job)))
            && c'.acked == c.acked + (if Done(job, run) then {job.id} else {})
            && c'.procs == (if Done(job, run) then c.procs - {p}
                            else if KnownKind(job) && job.attempts < s.maxRetries then
                              c.procs[p := Delaying(NextTry(job, ErrorText(job, run)), now + Doubling(s, job.attempts + 1) * SECOND)]
                            else c.procs[p := Burying(DeadCopy(job, Some(ErrorText(job, run)), now))])
  {
    hide HandleJob, Done, KnownKind, ErrorText, ToJson, LRem, NextTry, DeadCopy, RetryCopy, FailedCopy;
    var job := c.procs[p].job;
    CompletedIff(job, run);
    CopiesWritten(job, Some(ErrorText(job, run)), now);
    RetryTimeIsDoubling(s, job, now);
  }

  /** One iteration of the reclaimer up to its LREM. */
  ghost function LeaseTaken(s: Settings, c: Sys, p: nat): Sys
    requires p in c.procs && c.procs[p].Reclaiming? && c.procs[p].seen != []
  {
    var raw, rest, now := c.procs[p].seen[0], c.procs[p].seen[1..], c.procs[p].now;
    if FromJson(raw).Failure? then
      c.(procs := c.procs - {p})
    else if StaleEntry(s, raw, now) && raw in c.q.processing then
      c.(q := c.q.(processing := LRem(c.q.processing, raw)), procs := c.procs[p := ReclaimingOne(raw, rest, now)])
    else
      c.(procs := c.procs[p := Reclaiming(rest, now)])
  }

  ghost predicate Runs(s: Settings, first: Sys, cmds: seq<Command>, last: Sys)
    decreases |cmds|
  {
    if cmds == [] then first == last
    else CanDo(first, cmds[0]) && Runs(s, Exec(s, first, cmds[0]), cmds[1..], last)
  }

  ghost predicate Start(c: Sys) {
    c.q == Queues([], [], map[], []) && c.procs == map[] && c.enqueued == {} && c.acked == {}
  }

  // ---- who has an id ----

  ghost function IdsOf(entries: set<Json>): set<string> {
    set raw | raw in entries && IdOf(raw).Some? :: IdOf(raw).value
  }

  /** The entry a process holds outside every structure. */
  ghost function InHand(proc: Process): set<Json> {
    match proc
    case Stamping(lease) => {ToJson(lease)}
    case Delaying(copy, _) => {ToJson(copy)}
    case Burying(copy) => {ToJson(copy)}
    case PromotingOne(raw, _) => {raw}
    case ReclaimingOne(raw, _, _) => {raw}
    case RequeueingOne(raw) => {raw}
    case _ => {}
  }

  ghost function Hands(procs: map<nat, Process>): set<Json> {
    set p, raw | p in procs && raw in InHand(procs[p]) :: raw
  }

  ghost function Entries(c: Sys): set<Json> {
    Elements(c.q.main) + Elements(c.q.processing) + c.q.delayed.Keys + Elements(c.q.failed) + Hands(c.procs)
  }

  /** Ids with an entry in a structure or in some process's hand; a running handler alone does not count. */
  ghost function Present(c: Sys): set<string> {
    IdsOf(Entries(c))
  }

  /** What a process still means to put back, or to settle. */
  ghost predicate Known(c: Sys, proc: Process) {
    && (proc.Handling? ==> proc.job.id in c.enqueued)
    && (proc.Popped? ==> FromJson(proc.raw).Success? && FromJson(proc.raw).value.id in c.enqueued)
  }

  ghost predicate Conserved(c: Sys) {
    && (forall raw :: raw in Entries(c) ==> FromJson(raw).Success?)
    && (forall p :: p in c.procs ==> Known(c, c.procs[p]))
    && Present(c) + c.acked == c.enqueued
  }

  // ---- moving entries ----

  /** A step that only trades entry `gone` for entry `put` of the same id keeps the account. */
  lemma Traded(c: Sys, c': Sys, gone: set<Json>, put: set<Json>)
    requires Conserved(c)
    requires Entries(c) <= Entries(c') + gone && Entries(c') <= Entries(c) + put && put <= Entries(c')
    requires IdsOf(gone) <= IdsOf(Entries(c')) + c'.acked
    requires c'.enqueued == c.enqueued + IdsOf(put)
    requires c.acked <= c'.acked <= c'.enqueued
    requires forall raw :: raw in put ==> FromJson(raw).Success?
    requires forall p :: p in c'.procs ==> Known(c', c'.procs[p])
    ensures Conserved(c')
  {
    hide FromJson, IdOf, Entries, Known;
    forall id | id in c'.enqueued
      ensures id in Present(c') || id in c'.acked
    {
      if id in c.enqueued && id !in c.acked {
        var raw :| raw in Entries(c) && IdOf(raw) == Some(id);
        if raw !in Entries(c') {
          assert id in IdsOf(gone);
        }
      } else if id !in c.enqueued {
        var raw :| raw in put && IdOf(raw) == Some(id);
        assert raw in Entries(c');
      }
    }
  }

  lemma HandsSet(procs: map<nat, Process>, p: nat, proc: Process)
    ensures InHand(proc) <= Hands(procs[p := proc]) <= Hands(procs) + InHand(proc)
    ensures Hands(procs) <= Hands(procs[p := proc]) + if p in procs then InHand(procs[p]) else {}
  {
    hide InHand;
    var procs' := procs[p := proc];
    forall raw | raw in InHand(proc)
      ensures raw in Hands(procs')
    {
      assert p in procs' && procs'[p] == proc;
    }
    forall raw | raw in Hands(procs)
      ensures raw in Hands(procs') || (p in procs && raw in InHand(procs[p]))
    {
      var r :| r in procs && raw in InHand(procs[r]);
      if r != p {
        assert r in procs' && procs'[r] == procs[r];
      }
    }
  }

  lemma HandsDrop(procs: map<nat, Process>, p: nat)
    requires p in procs
    ensures Hands(procs - {p}) <= Hands(procs) <= Hands(procs - {p}) + InHand(procs[p])
  {
    hide InHand;
    var procs' := procs - {p};
    forall raw | raw in Hands(procs)
      ensures raw in Hands(procs') || raw in InHand(procs[p])
    {
      var r :| r in procs && raw in InHand(procs[r]);
      if r != p {
        assert r in procs' && procs'[r] == procs[r];
      }
    }
    forall raw | raw in Hands(procs')
      ensures raw in Hands(procs)
    {
      var r :| r in procs' && raw in InHand(procs'[r]);
      assert r in procs && procs[r] == procs'[r];
    }
  }

  lemma HandIsEntry(c: Sys, p: nat)
    requires p in c.procs
    ensures InHand(c.procs[p]) <= Entries(c)
  {
    hide InHand;
  }

  lemma PushElements(entry: Json, list: seq<Json>)
    ensures Elements([entry] + list) == {entry} + Elements(list)
  {
  }

  lemma PopElements(list: seq<Json>)
    requires list != []
    ensures list[|list| - 1] in list
    ensures Elements(list) == Elements(list[..|list| - 1]) + {list[|list| - 1]}
  {
    assert list == list[..|list| - 1] + [list[|list| - 1]];
  }

  lemma LRemElements(list: seq<Json>, value: Json)
    ensures Elements(LRem(list, value)) <= Elements(list) <= Elements(LRem(list, value)) + {value}
  {
    hide LRem;
    forall raw
      ensures raw in LRem(list, value) ==> raw in list
      ensures raw in list && raw != value ==> raw in LRem(list, value)
    {
      LRemMembers(list, value, raw);
    }
  }

  lemma IdsOfOne(raw: Json)
    requires FromJson(raw).Success?
    ensures IdsOf({raw}) == {FromJson(raw).value.id}
  {
    hide FromJson;
  }

  lemma KnownStays(c: Sys, c': Sys, p: nat)
    requires Conserved(c) && c.enqueued <= c'.enqueued
    requires forall r :: r in c'.procs && r != p ==> r in c.procs && c'.procs[r] == c.procs[r]
    requires p in c'.procs ==> Known(c', c'.procs[p])
    ensures forall r :: r in c'.procs ==> Known(c', c'.procs[r])
  {
    hide FromJson;
  }

  /** Only process p has moved on, or left. */
  ghost predicate Replaced(c: Sys, c': Sys, p: nat) {
    if p in c'.procs then c'.procs == c.procs[p := c'.procs[p]] else c'.procs == c.procs - {p}
  }

  /** An id with an entry has been enqueued. */
  lemma EntryIsEnqueued(c: Sys, raw: Json)
    requires Conserved(c) && raw in Entries(c)
    ensures FromJson(raw).Success? && FromJson(raw).value.id in c.enqueued
  {
    hide FromJson, Entries;
    assert FromJson(raw).value.id in Present(c);
  }

  // ---- the commands, by what they move ----

  lemma ConservedEnqueue(s: Settings, c: Sys, job: Job)
    requires Conserved(c)
    ensures Conserved(Exec(s, c, Command.Enqueue(job)))
  {
    hide FromJson, ToJson, IdOf, InHand, Hands;
    var c' := Exec(s, c, Command.Enqueue(job));
    IdOfToJson(job);
    IdsOfOne(ToJson(job));
    PushElements(ToJson(job), c.q.main);
    Traded(c, c', {}, {ToJson(job)});
  }

  lemma ConservedPop(s: Settings, c: Sys, p: nat)
    requires Conserved(c) && CanDo(c, Pop(p))
    ensures Conserved(Exec(s, c, Pop(p)))
  {
    hide FromJson, ToJson, IdOf, Hands;
    var c' := Exec(s, c, Pop(p));
    var raw := c.q.main[|c.q.main| - 1];
    PopElements(c.q.main);
    PushElements(raw, c.q.processing);
    HandsSet(c.procs, p, Popped(raw));
    EntryIsEnqueued(c, raw);
    KnownStays(c, c', p);
    Traded(c, c', {}, {});
  }

  /** LREM takes an entry out of the list; the process keeps its rewritten form in hand, or the id is acknowledged. */
  lemma ConservedRemove(c: Sys, c': Sys, p: nat, gone: Json, put: set<Json>)
    requires Conserved(c) && p in c.procs && InHand(c.procs[p]) == {}
    requires FromJson(gone).Success? && FromJson(gone).value.id in c.enqueued
    requires forall raw :: raw in put ==> FromJson(raw).Success? && FromJson(raw).value.id == FromJson(gone).value.id
    requires c'.q == c.q.(processing := LRem(c.q.processing, gone)) && c'.enqueued == c.enqueued
    requires Replaced(c, c', p)
    requires if p in c'.procs then InHand(c'.procs[p]) == put && !c'.procs[p].Handling? && !c'.procs[p].Popped? else put == {}
    requires c'.acked == if put == {} then c.acked + {FromJson(gone).value.id} else c.acked
    ensures Conserved(c')
  {
    hide FromJson, ToJson, IdOf, InHand, Hands, LRem;
    LRemElements(c.q.processing, gone);
    HandsDrop(c.procs, p);
    IdsOfOne(gone);
    if p in c'.procs {
      HandsSet(c.procs, p, c'.procs[p]);
    }
    KnownStays(c, c', p);
    forall id | id in IdsOf({gone})
      ensures id in IdsOf(Entries(c')) + c'.acked
    {
      if put != {} {
        var raw :| raw in put;
        assert raw in Entries(c');
        assert IdOf(raw) == Some(id) by {
          IdOfParsed(raw);
        }
      }
    }
    forall id | id in IdsOf(put)
      ensures id in c.enqueued
    {
      var raw :| raw in put && IdOf(raw) == Some(id);
      IdOfParsed(raw);
    }
    Traded(c, c', {gone}, put);
  }

  lemma IdOfParsed(raw: Json)
    requires FromJson(raw).Success?
    ensures IdOf(raw) == Some(FromJson(raw).value.id)
  {
  }

  lemma ConservedStamp(s: Settings, c: Sys, p: nat, now: Time)
    requires Conserved(c) && CanDo(c, Command.Stamp(p, now))
    ensures Conserved(Exec(s, c, Command.Stamp(p, now)))
  {
    hide FromJson, ToJson, IdOf, Hands, LRem;
    var c' := Exec(s, c, Command.Stamp(p, now));
    var raw := c.procs[p].raw;
    var lease := FromJson(raw).value.WithProcessingStartedAt(now);
    IdOfToJson(lease);
    if ToJson(lease) == raw {
      HandsSet(c.procs, p, Handling(lease));
      KnownStays(c, c', p);
      Traded(c, c', {}, {});
    } else {
      ConservedRemove(c, c', p, raw, {ToJson(lease)});
    }
  }

  lemma ConservedSettle(s: Settings, c: Sys, p: nat, run: HandlerRun, now: Time)
    requires Conserved(c) && CanDo(c, Command.Settle(p, run, now))
    ensures Conserved(Exec(s, c, Command.Settle(p, run, now)))
  {
    hide FromJson, ToJson, IdOf, Hands, LRem, HandleJob, RetryTime;
    var c' := Exec(s, c, Command.Settle(p, run, now));
    var job := c.procs[p].job;
    IdOfToJson(job);
    match HandleJob(job, run) {
      case Completed =>
        ConservedRemove(c, c', p, ToJson(job), {});
      case UnknownType(message) =>
        IdOfToJson(FailedCopy(job, Some(message), now));
        ConservedRemove(c, c', p, ToJson(job), {ToJson(FailedCopy(job, Some(message), now))});
      case Raised(message) =>
        IdOfToJson(FailedCopy(job, Some(message), now));
        IdOfToJson(RetryCopy(job, message));
        if job.attempts < s.maxRetries {
          ConservedRemove(c, c', p, ToJson(job), {ToJson(RetryCopy(job, message))});
        } else {
          ConservedRemove(c, c', p, ToJson(job), {ToJson(FailedCopy(job, Some(message), now))});
        }
    }
  }

  lemma ConservedTakeLease(s: Settings, c: Sys, p: nat)
    requires Conserved(c) && CanDo(c, TakeLease(p))
    ensures Conserved(Exec(s, c, TakeLease(p)))
  {
    hide FromJson, ToJson, IdOf, Hands, LRem, IsStale;
    var c' := Exec(s, c, TakeLease(p));
    var raw, rest, now := c.procs[p].seen[0], c.procs[p].seen[1..], c.procs[p].now;
    if FromJson(raw).Failure? {
      HandsDrop(c.procs, p);
      KnownStays(c, c', p);
      Traded(c, c', {}, {});
    } else if StaleEntry(s, raw, now) && raw in c.q.processing {
      EntryIsEnqueued(c, raw);
      ConservedRemove(c, c', p, raw, {raw});
    } else {
      HandsSet(c.procs, p, Reclaiming(rest, now));
      KnownStays(c, c', p);
      Traded(c, c', {}, {});
    }
  }

  /** The second command: what was in hand goes into a list of its own id. */
  lemma ConservedPut(c: Sys, c': Sys, p: nat, gone: Json, put: Json)
    requires Conserved(c) && p in c.procs && InHand(c.procs[p]) == {gone}
    requires FromJson(put).Success? && IdOf(put) == IdOf(gone)
    requires c'.enqueued == c.enqueued && c'.acked == c.acked
    requires Replaced(c, c', p) && (p in c'.procs ==> InHand(c'.procs[p]) == {} && Known(c', c'.procs[p]))
    requires var (a, b) := (c.q, c'.q);
             && Elements(a.main) <= Elements(b.main) <= Elements(a.main) + {put}
             && Elements(a.processing) <= Elements(b.processing) <= Elements(a.processing) + {put}
             && a.delayed.Keys <= b.delayed.Keys <= a.delayed.Keys + {put}
             && Elements(a.failed) <= Elements(b.failed) <= Elements(a.failed) + {put}
             && put in Elements(b.main) + Elements(b.processing) + b.delayed.Keys + Elements(b.failed)
    ensures Conserved(c')
  {
    hide FromJson, ToJson, IdOf, InHand, Hands, Elements, Known;
    HandIsEntry(c, p);
    EntryIsEnqueued(c, gone);
    IdOfParsed(gone);
    IdOfParsed(put);
    IdsOfOne(gone);
    IdsOfOne(put);
    HandsDrop(c.procs, p);
    if p in c'.procs {
      HandsSet(c.procs, p, c'.procs[p]);
    }
    KnownStays(c, c', p);
    assert put in Entries(c');
    assert IdsOf({gone}) <= IdsOf(Entries(c')) by {
      assert IdOf(put).Some?;
    }
    Traded(c, c', {gone}, {put});
  }

  lemma ConservedPush(s: Settings, c: Sys, cmd: Command)
    requires Conserved(c) && CanDo(c, cmd)
    requires cmd.PushLease? || cmd.PushFailed? || cmd.PushPromoted? || cmd.PushReclaimed? || cmd.PushRequeued? || cmd.AddDelayed?
    ensures Conserved(Exec(s, c, cmd))
  {
    hide FromJson, ToJson, IdOf, Hands, Stripped, Rewritten, Entries;
    var c', p := Exec(s, c, cmd), cmd.p;
    HandIsEntry(c, p);
    match cmd {
      case PushLease(_) =>
        var lease := c.procs[p].lease;
        PushElements(ToJson(lease), c.q.processing);
        IdOfToJson(lease);
        EntryIsEnqueued(c, ToJson(lease));
        ConservedPut(c, c', p, ToJson(lease), ToJson(lease));
      case PushFailed(_) =>
        var copy := c.procs[p].copy;
        PushElements(ToJson(copy), c.q.failed);
        IdOfToJson(copy);
        ConservedPut(c, c', p, ToJson(copy), ToJson(copy));
      case AddDelayed(_) =>
        var copy := c.procs[p].copy;
        IdOfToJson(copy);
        ConservedPut(c, c', p, ToJson(copy), ToJson(copy));
      case PushPromoted(_) =>
        var raw := c.procs[p].raw;
        PushElements(raw, c.q.main);
        EntryIsEnqueued(c, raw);
        ConservedPut(c, c', p, raw, raw);
      case PushReclaimed(_) =>
        var raw := c.procs[p].raw;
        PushElements(Stripped(raw), c.q.main);
        EntryIsEnqueued(c, raw);
        RewrittenKeepsId(raw);
        ConservedPut(c, c', p, raw, Stripped(raw));
      case PushRequeued(_) =>
        var raw := c.procs[p].raw;
        PushElements(Rewritten(raw), c.q.main);
        EntryIsEnqueued(c, raw);
        RewrittenKeepsId(raw);
        ConservedPut(c, c', p, raw, Rewritten(raw));
    }
  }

  /** ZREM: the entry moves into the hand as it is. */
  lemma ConservedTakeDue(s: Settings, c: Sys, p: nat)
    requires Conserved(c) && CanDo(c, TakeDue(p))
    ensures Conserved(Exec(s, c, TakeDue(p)))
  {
    hide FromJson, ToJson, IdOf, Hands;
    var c' := Exec(s, c, TakeDue(p));
    HandsSet(c.procs, p, c'.procs[p]);
    KnownStays(c, c', p);
    assert c.q.delayed.Keys <= c'.q.delayed.Keys + InHand(c'.procs[p]);
    Traded(c, c', {}, {});
  }

  /** RPOP: the entry moves into the hand as it is. */
  lemma ConservedPopFailed(s: Settings, c: Sys, p: nat)
    requires Conserved(c) && CanDo(c, PopFailed(p))
    ensures Conserved(Exec(s, c, PopFailed(p)))
  {
    hide FromJson, ToJson, IdOf, Hands;
    var c' := Exec(s, c, PopFailed(p));
    HandsSet(c.procs, p, c'.procs[p]);
    KnownStays(c, c', p);
    PopElements(c.q.failed);
    Traded(c, c', {}, {});
  }

  /** Reading a list, starting, stopping and dying move nothing. */
  lemma ConservedIdle(s: Settings, c: Sys, cmd: Command)
    requires Conserved(c) && CanDo(c, cmd)
    requires cmd.ReadDue? || cmd.ReadLeases? || cmd.StartRequeue? || cmd.Leave? || cmd.Die?
    ensures Conserved(Exec(s, c, cmd))
  {
    hide FromJson, ToJson, IdOf, Hands, DueOrder;
    var c', p := Exec(s, c, cmd), cmd.p;
    if p in c'.procs {
      HandsSet(c.procs, p, c'.procs[p]);
    } else {
      HandsDrop(c.procs, p);
    }
    KnownStays(c, c', p);
    Traded(c, c', {}, {});
  }

  lemma ConservedExec(s: Settings, c: Sys, cmd: Command)
    requires Conserved(c) && CanDo(c, cmd)
    ensures Conserved(Exec(s, c, cmd))
  {
    hide Conserved, Exec;
    match cmd {
      case Enqueue(job) => ConservedEnqueue(s, c, job);
      case Pop(p) => ConservedPop(s, c, p);
      case Stamp(p, now) => ConservedStamp(s, c, p, now);
      case Settle(p, run, now) => ConservedSettle(s, c, p, run, now);
      case TakeLease(p) => ConservedTakeLease(s, c, p);
      case TakeDue(p) => ConservedTakeDue(s, c, p);
      case PopFailed(p) => ConservedPopFailed(s, c, p);
      case ReadDue(_, _, _) => ConservedIdle(s, c, cmd);
      case ReadLeases(_, _) => ConservedIdle(s, c, cmd);
      case StartRequeue(_) => ConservedIdle(s, c, cmd);
      case Leave(_) => ConservedIdle(s, c, cmd);
      case Die(_) => ConservedIdle(s, c, cmd);
      case _ => ConservedPush(s, c, cmd);
    }
  }

  lemma {:induction false} ConservedRuns(s: Settings, first: Sys, cmds: seq<Command>, last: Sys)
    requires Conserved(first) && Runs(s, first, cmds, last)
    ensures Conserved(last)
    decreases |cmds|
  {
    hide Conserved, CanDo, Exec;
    if cmds != [] {
      ConservedExec(s, first, cmds[0]);
      ConservedRuns(s, Exec(s, first, cmds[0]), cmds[1..], last);
    }
  }

  /**
   In every reachable state the enqueued ids are those with an entry in a structure or in some process's
   hand, together with those acknowledged after a successful handler: none is lost and none is invented.
   */
  lemma NoJobLost(s: Settings, first: Sys, cmds: seq<Command>, last: Sys)
    requires Start(first) && Runs(s, first, cmds, last)
    ensures Present(last) + last.acked == last.enqueued
    ensures forall raw :: raw in Entries(last) ==> FromJson(raw).Success?
  {
    hide FromJson, ToJson, IdOf;
    ConservedRuns(s, first, cmds, last);
  }
}

/** A request whose statements are not interleaved with others does what the endpoint method does as a whole. */
module WebhookAlone {
  import opened Wrappers
  import opened WebhookSecurity
  import opened Webhooks
  import opened WebhookRuns

  /** The statements of a request that runs alone at the present clock reading. */
  ghost function Alone(s: Settings, st: State, r: nat, scope: string, delivery: Delivery, limited: bool): seq<Step> {
    [Start(r, scope, delivery), Read(r, st.now)] +
    if Cached(st.tables.records, scope, st.now).Some? then []
    else if scope in st.locks then [Lock(r), Reread(r, st.now)]
    else if Refusal(s, delivery, limited, st.now).Some? then [Lock(r), Check(r, limited), Release(r)]
    else if scope in st.tables.records then
      [Lock(r), Check(r, limited), Persist(r, st.now), Store(r, st.now), Fetch(r, st.now), Release(r)]
    else [Lock(r), Check(r, limited), Persist(r, st.now), Store(r, st.now), Release(r)]
  }

  lemma {:induction false} Extend(s: Settings, first: State, steps: seq<Step>, st: State, step: Step)
    requires Run(s, first, steps, st) && Enabled(s, st, step)
    ensures Run(s, first, steps + [step], Do(s, st, step))
    decreases |steps|
  {
    hide Enabled, Do;
    if steps == [] {
      assert [step][1..] == [];
    } else {
      Extend(s, Do(s, first, steps[0]), steps[1..], st, step);
      assert (steps + [step])[1..] == steps[1..] + [step];
    }
  }

  ghost function Stage(st: State, r: nat, scope: string, delivery: Delivery, at: Point): State {
    st.(requests := st.requests[r := Request(scope, delivery, st.now, at)])
  }

  lemma Opens(s: Settings, st: State, r: nat, scope: string, delivery: Delivery)
    requires r !in st.requests
    ensures Run(s, st, [Start(r, scope, delivery)], Stage(st, r, scope, delivery, Reading))
  {
    assert Enabled(s, st, Start(r, scope, delivery));
    assert Do(s, st, Start(r, scope, delivery)) == Stage(st, r, scope, delivery, Reading);
    assert [Start(r, scope, delivery)][1..] == [];
    hide Do;
    assert Run(s, Stage(st, r, scope, delivery, Reading), [], Stage(st, r, scope, delivery, Reading));
  }

  lemma AnswersFromCache(s: Settings, st: State, r: nat, scope: string, delivery: Delivery) returns (last: State)
    requires r !in st.requests && Cached(st.tables.records, scope, st.now).Some?
    ensures Run(s, st, [Start(r, scope, delivery), Read(r, st.now)], last)
    ensures last == st.(answers := st.answers + [Answer(scope, st.tables.records[scope], st.now)])
  {
    var s1 := Stage(st, r, scope, delivery, Reading);
    last := Do(s, s1, Read(r, st.now));
    assert last.requests == st.requests;
    Opens(s, st, r, scope, delivery);
    hide Do;
    Extend(s, st, [Start(r, scope, delivery)], s1, Read(r, st.now));
    assert [Start(r, scope, delivery)] + [Read(r, st.now)] == [Start(r, scope, delivery), Read(r, st.now)];
  }

  lemma FindsNothing(s: Settings, st: State, r: nat, scope: string, delivery: Delivery)
    requires r !in st.requests && Cached(st.tables.records, scope, st.now).None?
    ensures Run(s, st, [Start(r, scope, delivery), Read(r, st.now)], Stage(st, r, scope, delivery, Locking))
  {
    var s1 := Stage(st, r, scope, delivery, Reading);
    assert Do(s, s1, Read(r, st.now)) == Stage(st, r, scope, delivery, Locking);
    Opens(s, st, r, scope, delivery);
    hide Do;
    Extend(s, st, [Start(r, scope, delivery)], s1, Read(r, st.now));
    assert [Start(r, scope, delivery)] + [Read(r, st.now)] == [Start(r, scope, delivery), Read(r, st.now)];
  }

  /** The lock is free: on to the checks, holding it. */
  lemma Locks(s: Settings, st: State, steps: seq<Step>, r: nat, scope: string, delivery: Delivery)
    requires Run(s, st, steps, Stage(st, r, scope, delivery, Locking)) && scope !in st.locks
    ensures Run(s, st, steps + [Lock(r)], Stage(st.(locks := st.locks + {scope}), r, scope, delivery, Checking))
  {
    var s2 := Stage(st, r, scope, delivery, Locking);
    assert Do(s, s2, Lock(r)) == Stage(st.(locks := st.locks + {scope}), r, scope, delivery, Checking);
    hide Do;
    Extend(s, st, steps, s2, Lock(r));
  }

  lemma FindsLocked(s: Settings, st: State, steps: seq<Step>, r: nat, scope: string, delivery: Delivery)
    requires Run(s, st, steps, Stage(st, r, scope, delivery, Locking)) && scope in st.locks
    requires r !in st.requests && Cached(st.tables.records, scope, st.now).None?
    ensures Run(s, st, steps + [Lock(r), Reread(r, st.now)], st)
  {
    var s2 := Stage(st, r, scope, delivery, Locking);
    var s3 := Stage(st, r, scope, delivery, Rereading);
    assert Do(s, s2, Lock(r)) == s3;
    assert Do(s, s3, Reread(r, st.now)).requests == st.requests;
    assert Do(s, s3, Reread(r, st.now)) == st;
    hide Do;
    Extend(s, st, steps, s2, Lock(r));
    Extend(s, st, steps + [Lock(r)], s3, Reread(r, st.now));
    assert steps + [Lock(r)] + [Reread(r, st.now)] == steps + [Lock(r), Reread(r, st.now)];
  }

  /** The last statement: the key is deleted, which leaves the locks as they were before the request took its own. */
  lemma Releases(s: Settings, st: State, steps: seq<Step>, middle: State, r: nat) returns (last: State)
    requires Run(s, st, steps, middle) && At(middle, r, Releasing) && r !in st.requests
    requires middle.requests - {r} == st.requests
    requires middle.requests[r].scope !in st.locks && middle.locks == st.locks + {middle.requests[r].scope}
    ensures Run(s, st, steps + [Release(r)], last)
    ensures last.tables == middle.tables && last.answers == middle.answers && last.requests == st.requests && last.locks == st.locks
  {
    last := Do(s, middle, Release(r));
    assert last.locks == st.locks;
    hide Do;
    Extend(s, st, steps, middle, Release(r));
  }

  lemma Refused(s: Settings, st: State, steps: seq<Step>, r: nat, scope: string, delivery: Delivery, limited: bool)
    returns (last: State)
    requires r !in st.requests && scope !in st.locks && Refusal(s, delivery, limited, st.now).Some?
    requires Run(s, st, steps, Stage(st.(locks := st.locks + {scope}), r, scope, delivery, Checking))
    ensures Run(s, st, steps + [Check(r, limited)] + [Release(r)], last)
    ensures last.tables == st.tables && last.answers == st.answers && last.requests == st.requests && last.locks == st.locks
  {
    hide Refusal;
    var s3 := Stage(st.(locks := st.locks + {scope}), r, scope, delivery, Checking);
    var s4 := Stage(st.(locks := st.locks + {scope}), r, scope, delivery, Releasing);
    assert Do(s, s3, Check(r, limited)) == s4;
    assert s4.requests - {r} == st.requests;
    hide Do;
    Extend(s, st, steps, s3, Check(r, limited));
    last := Releases(s, st, steps + [Check(r, limited)], s4, r);
  }

  lemma Persists(s: Settings, st: State, steps: seq<Step>, r: nat, scope: string, delivery: Delivery, limited: bool)
    returns (middle: State)
    requires r !in st.requests && Refusal(s, delivery, limited, st.now).None?
    requires Run(s, st, steps, Stage(st.(locks := st.locks + {scope}), r, scope, delivery, Checking))
    ensures Run(s, st, steps + [Check(r, limited)] + [Persist(r, st.now)], middle)
    ensures middle == PersistedBy(Stage(st.(locks := st.locks + {scope}), r, scope, delivery,
                                        Persisting(s.parse(delivery.body).value, st.now)), r, st.now)
  {
    hide VerifyInbound;
    var event := s.parse(delivery.body).value;
    var s3 := Stage(st.(locks := st.locks + {scope}), r, scope, delivery, Checking);
    var s4 := Stage(st.(locks := st.locks + {scope}), r, scope, delivery, Persisting(event, st.now));
    assert Do(s, s3, Check(r, limited)) == s4;
    assert Enabled(s, s4, Persist(r, st.now));
    middle := PersistedBy(s4, r, st.now);
    assert middle == Do(s, s4, Persist(r, st.now));
    hide Do, Refusal;
    Extend(s, st, steps, s3, Check(r, limited));
    Extend(s, st, steps + [Check(r, limited)], s4, Persist(r, st.now));
  }

  lemma StoresNew(s: Settings, st: State, steps: seq<Step>, middle: State, r: nat, scope: string) returns (last: State)
    requires Run(s, st, steps, middle) && middle.now == st.now && r !in st.requests && middle.requests - {r} == st.requests
    requires r in middle.requests && middle.requests[r].at.Storing? && middle.requests[r].scope == scope
    requires scope !in st.locks && middle.locks == st.locks + {scope} && scope !in middle.tables.records
    ensures Run(s, st, steps + [Store(r, st.now)] + [Release(r)], last)
    ensures last.requests == st.requests && last.locks == st.locks
    ensures var (t', reply) := Stored(s, middle.tables, scope, middle.requests[r].at.body, st.now);
            last.tables == t' && reply.Answered? && last.answers == middle.answers + [Answer(scope, reply.record, st.now)]
  {
    assert Enabled(s, middle, Store(r, st.now));
    var next := StoredBy(s, middle, r, st.now);
    assert next == Do(s, middle, Store(r, st.now));
    assert next.requests - {r} == st.requests;
    hide Do;
    Extend(s, st, steps, middle, Store(r, st.now));
    last := Releases(s, st, steps + [Store(r, st.now)], next, r);
  }

  lemma StoresOverExpired(s: Settings, st: State, steps: seq<Step>, middle: State, r: nat, scope: string) returns (last: State)
    requires Run(s, st, steps, middle) && middle.now == st.now && r !in st.requests && middle.requests - {r} == st.requests
    requires r in middle.requests && middle.requests[r].at.Storing? && middle.requests[r].scope == scope
    requires scope !in st.locks && middle.locks == st.locks + {scope}
    requires scope in middle.tables.records && Cached(middle.tables.records, scope, st.now).None?
    ensures Run(s, st, steps + [Store(r, st.now)] + [Fetch(r, st.now)] + [Release(r)], last)
    ensures last.requests == st.requests && last.locks == st.locks && last.tables == middle.tables && last.answers == middle.answers
  {
    var s6 := Goes(middle, r, Fetching);
    var s7 := Goes(s6, r, Releasing);
    assert Enabled(s, middle, Store(r, st.now)) && s6 == Do(s, middle, Store(r, st.now));
    assert Enabled(s, s6, Fetch(r, st.now)) && s7 == Do(s, s6, Fetch(r, st.now));
    assert s7.requests - {r} == st.requests;
    hide Do;
    Extend(s, st, steps, middle, Store(r, st.now));
    Extend(s, st, steps + [Store(r, st.now)], s6, Fetch(r, st.now));
    last := Releases(s, st, steps + [Store(r, st.now)] + [Fetch(r, st.now)], s7, r);
  }

  /** What the event statement has done, at one clock reading. */
  lemma PersistedAlone(st: State, r: nat, scope: string, delivery: Delivery, event: Event, middle: State)
    requires r !in st.requests
    requires middle == PersistedBy(Stage(st.(locks := st.locks + {scope}), r, scope, delivery, Persisting(event, st.now)), r, st.now)
    ensures middle.tables == Filed(st.tables, event, st.now) && middle.answers == st.answers && middle.now == st.now
    ensures r in middle.requests && middle.requests[r].scope == scope && middle.requests[r].at.Storing?
    ensures middle.requests[r].at.body == NewBody(st.tables, event)
    ensures middle.requests - {r} == st.requests && middle.locks == st.locks + {scope}
  {
  }

  /** Tables, locks, and the answer given: the statements one by one agree with the request as a whole. */
  lemma AloneIsHandled(s: Settings, st: State, r: nat, scope: string, delivery: Delivery, limited: bool) returns (last: State)
    requires r !in st.requests && |delivery.body| <= s.maxBody
    ensures Run(s, st, Alone(s, st, r, scope, delivery, limited), last)
    ensures var (t', reply) := Handled(s, st.tables, scope in st.locks, scope, delivery, limited, st.now);
            && last.tables == t' && last.locks == st.locks && last.requests == st.requests
            && last.answers == st.answers + if reply.Answered? then [Answer(scope, reply.record, st.now)] else []
  {
    hide Run, VerifyInbound;
    var open := [Start(r, scope, delivery), Read(r, st.now)];
    var all := Alone(s, st, r, scope, delivery, limited);
    if Cached(st.tables.records, scope, st.now).Some? {
      last := AnswersFromCache(s, st, r, scope, delivery);
      assert all == open;
      return;
    }
    FindsNothing(s, st, r, scope, delivery);
    if scope in st.locks {
      FindsLocked(s, st, open, r, scope, delivery);
      last := st;
      return;
    }
    Locks(s, st, open, r, scope, delivery);
    var locked := open + [Lock(r)];
    if Refusal(s, delivery, limited, st.now).Some? {
      last := Refused(s, st, locked, r, scope, delivery, limited);
      assert all == locked + [Check(r, limited)] + [Release(r)];
      return;
    }
    var middle := Persists(s, st, locked, r, scope, delivery, limited);
    PersistedAlone(st, r, scope, delivery, s.parse(delivery.body).value, middle);
    hide PersistedBy, Stage, Filed, NewBody;
    var steps := locked + [Check(r, limited)] + [Persist(r, st.now)];
    if scope in st.tables.records {
      last := StoresOverExpired(s, st, steps, middle, r, scope);
      assert all == steps + [Store(r, st.now)] + [Fetch(r, st.now)] + [Release(r)];
    } else {
      last := StoresNew(s, st, steps, middle, r, scope);
      assert all == steps + [Store(r, st.now)] + [Release(r)];
    }
  }

  /**
   A request that dies keeps its key locked: a later one alone is refused without an answer, until the lock has expired;
   then it is handled as if the first had never been.
   */
  lemma DeadRequestBlocksKey(s: Settings, st: State, dead: nat, r: nat, scope: string, delivery: Delivery, limited: bool)
    returns (blocked: State, free: State)
    requires dead in st.requests && st.requests[dead].scope == scope && scope in st.locks
    requires r !in st.requests && |delivery.body| <= s.maxBody && !Answerable(st.tables.records, scope, st.now)
    ensures var left := Do(s, st, Die(dead));
            && dead !in left.requests
            && Run(s, left, Alone(s, left, r, scope, delivery, limited), blocked)
            && blocked.tables == st.tables && blocked.answers == st.answers
            && var expired := Do(s, left, LocksBecome(st.locks - {scope}));
            && Run(s, expired, Alone(s, expired, r, scope, delivery, limited), free)
            && free.tables == Handled(s, st.tables, false, scope, delivery, limited, st.now).0
  {
    var left := Do(s, st, Die(dead));
    var expired := Do(s, left, LocksBecome(st.locks - {scope}));
    assert left.tables == st.tables && left.now == st.now && scope in left.locks && left.answers == st.answers && r !in left.requests;
    assert expired.tables == st.tables && expired.now == st.now && scope !in expired.locks && r !in expired.requests;
    hide Run, Alone, VerifyInbound, Refusal, Do;
    blocked := AloneIsHandled(s, left, r, scope, delivery, limited);
    free := AloneIsHandled(s, expired, r, scope, delivery, limited);
  }

  /** The cleanup of an expired record frees its key: a request past all checks alone gets an answer again. */
  lemma CleanedKeyAnswersAgain(s: Settings, st: State, r: nat, scope: string, delivery: Delivery) returns (last: State)
    requires scope in st.tables.records && st.tables.records[scope].expiresAt < st.now && scope !in st.locks
    requires r !in st.requests && |delivery.body| <= s.maxBody && Refusal(s, delivery, false, st.now).None?
    ensures var cleaned := Do(s, st, CleanRecords(st.now));
            && Run(s, cleaned, Alone(s, cleaned, r, scope, delivery, false), last)
            && last.answers == st.answers
                               + [Answer(scope, FirstAnswer(s, st.tables.events, s.parse(delivery.body).value, st.now), st.now)]
  {
    var cleaned := Do(s, st, CleanRecords(st.now));
    assert scope !in cleaned.tables.records && cleaned.tables.events == st.tables.events && cleaned.now == st.now;
    assert scope !in cleaned.locks && cleaned.answers == st.answers && r !in cleaned.requests;
    hide Run, Alone, VerifyInbound, Refusal, Do;
    last := AloneIsHandled(s, cleaned, r, scope, delivery, false);
  }
}

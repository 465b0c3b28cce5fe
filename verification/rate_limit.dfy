/** The fixed-window rate limiter: one Redis counter per key, INCR then EXPIRE on the first count. */
module RateLimit {
  import opened Clock

  /** A key without a time to live, one that expires, or no key. */
  datatype Counter = Gone | Counting(count: nat) | Expiring(count: nat, expiresAt: Time)

  function Alive(c: Counter, now: Time): Counter {
    if c.Expiring? && c.expiresAt <= now then Gone else c
  }

  function Incr(c: Counter, now: Time): (r: Counter)
    ensures r != Gone
  {
    match Alive(c, now)
    case Gone => Counting(1)
    case Counting(n) => Counting(n + 1)
    case Expiring(n, at) => Expiring(n + 1, at)
  }

  function Expire(c: Counter, now: Time, window: Time): Counter {
    var alive := Alive(c, now);
    if alive == Gone then Gone else Expiring(alive.count, now + window)
  }

  datatype Verdict = Allowed | TooManyRequests

  // ---- interleaved calls ----

  /** One call: when its INCR ran, in which lifetime of the key, and the count it got back. */
  datatype Call = Call(at: Time, life: nat, rank: nat)

  /**
   `births` and `deaths` are history: when each lifetime's first INCR ran and when it expires, once that is known.
   `pending` says that the EXPIRE owed by the first INCR of the current lifetime has not run yet.
   */
  datatype State = State(now: Time, counter: Counter, pending: bool, calls: seq<Call>, births: seq<Time>, deaths: seq<Time>)

  datatype Step = Tick(to: Time) | RunIncr | RunExpire

  predicate Enabled(st: State, step: Step) {
    match step
    case Tick(to) => st.now <= to
    case RunIncr => true
    case RunExpire => st.pending
  }

  function Do(st: State, step: Step, window: Time): State
    requires Enabled(st, step)
  {
    match step
    case Tick(to) => st.(now := to)
    case RunIncr =>
      var counted := Incr(st.counter, st.now);
      var births := if counted.count == 1 then st.births + [st.now] else st.births;
      st.(counter := counted,
          pending := st.pending || counted.count == 1,
          births := births,
          calls := st.calls + [Call(st.now, if |births| > 0 then |births| - 1 else 0, counted.count)])
    case RunExpire =>
      st.(counter := Expire(st.counter, st.now, window), pending := false, deaths := st.deaths + [st.now + window])
  }

  predicate Run(first: State, steps: seq<Step>, last: State, window: Time)
    decreases |steps|
  {
    if steps == [] then first == last
    else Enabled(first, steps[0]) && Run(Do(first, steps[0], window), steps[1..], last, window)
  }

  predicate Init(st: State) {
    st.counter == Gone && !st.pending && st.calls == [] && st.births == [] && st.deaths == []
  }

  /** Calls made in one lifetime of the key. */
  function CallsOf(calls: seq<Call>, life: nat): nat {
    if calls == [] then 0
    else CallsOf(calls[..|calls| - 1], life) + if calls[|calls| - 1].life == life then 1 else 0
  }

  function AdmittedOf(calls: seq<Call>, life: nat, limit: int): nat {
    if calls == [] then 0
    else
      var last := calls[|calls| - 1];
      AdmittedOf(calls[..|calls| - 1], life, limit) + if last.life == life && last.rank <= limit then 1 else 0
  }

  /** Calls admitted between two times, both included. */
  function AdmittedBetween(calls: seq<Call>, from: Time, to: Time, limit: int): nat {
    if calls == [] then 0
    else
      var last := calls[|calls| - 1];
      AdmittedBetween(calls[..|calls| - 1], from, to, limit) + if from <= last.at <= to && last.rank <= limit then 1 else 0
  }

  /** A key lives at least one window after its first INCR, and the next one starts only after it is gone. */
  ghost predicate LivesApart(st: State, window: Time) {
    && |st.deaths| == |st.births| - (if st.pending then 1 else 0)
    && (forall k :: 0 <= k < |st.deaths| ==> st.births[k] + window <= st.deaths[k])
    && (forall k, m :: 0 <= k && m == k + 1 && m < |st.births| ==> st.deaths[k] <= st.births[m])
    && (forall k :: 0 <= k < |st.births| ==> st.births[k] <= st.now)
  }

  ghost predicate CallsInLives(st: State) {
    forall i :: 0 <= i < |st.calls| ==>
      var call := st.calls[i];
      && call.life < |st.births|
      && st.births[call.life] <= call.at <= st.now
      && (call.life < |st.deaths| ==> call.at < st.deaths[call.life])
  }

  /** The counter and the history agree. */
  ghost predicate CounterTracks(st: State) {
    match st.counter
    case Gone => st.births == [] && !st.pending
    case Counting(n) => st.pending && |st.births| > 0 && n > 0 && n == CallsOf(st.calls, |st.births| - 1)
    case Expiring(n, at) =>
      && !st.pending && 0 < |st.births| == |st.deaths|
      && n > 0 && n == CallsOf(st.calls, |st.births| - 1) && at == st.deaths[|st.births| - 1]
  }

  /** Within a lifetime the counts handed out are 1, 2, 3, ... */
  ghost predicate Ranked(calls: seq<Call>) {
    forall i :: 0 <= i < |calls| ==> calls[i].rank == CallsOf(calls[..i + 1], calls[i].life)
  }

  ghost predicate Inv(st: State, window: Time) {
    LivesApart(st, window) && CounterTracks(st) && CallsInLives(st) && Ranked(st.calls)
  }

  lemma {:induction false} FutureLifeEmpty(calls: seq<Call>, life: nat)
    requires forall i :: 0 <= i < |calls| ==> calls[i].life < life
    ensures CallsOf(calls, life) == 0
  {
    if calls != [] {
      FutureLifeEmpty(calls[..|calls| - 1], life);
    }
  }

  lemma InvStep(st: State, step: Step, window: Time)
    requires 0 < window && Inv(st, window) && Enabled(st, step)
    ensures Inv(Do(st, step, window), window)
  {
    match step {
      case Tick(to) =>
      case RunIncr =>
        IncrStep(st, window);
        IncrRanked(st, window);
      case RunExpire => ExpireStep(st, window);
    }
  }

  lemma ExpireStep(st: State, window: Time)
    requires 0 < window && Inv(st, window) && st.pending
    ensures Inv(Do(st, RunExpire, window), window)
  {
    hide CallsOf, Ranked;
    var st' := Do(st, RunExpire, window);
    assert st.counter.Counting? && st'.counter == Expiring(st.counter.count, st.now + window);
    assert LivesApart(st', window);
  }

  lemma IncrStep(st: State, window: Time)
    requires 0 < window && Inv(st, window)
    ensures var st' := Do(st, RunIncr, window);
            LivesApart(st', window) && CounterTracks(st') && CallsInLives(st')
  {
    hide LivesApart, CounterTracks, CallsInLives, CallsOf, Ranked, Do;
    if Alive(st.counter, st.now) == Gone {
      FirstIncr(st, window);
    } else {
      LaterIncr(st, window);
    }
  }

  lemma FirstIncr(st: State, window: Time)
    requires 0 < window && LivesApart(st, window) && CounterTracks(st) && CallsInLives(st)
    requires Alive(st.counter, st.now) == Gone
    ensures var st' := Do(st, RunIncr, window);
            LivesApart(st', window) && CounterTracks(st') && CallsInLives(st')
  {
    hide Ranked, CallsOf;
    var st' := Do(st, RunIncr, window);
    var call := Call(st.now, |st.births|, 1);
    assert st'.births == st.births + [st.now] && st'.calls == st.calls + [call];
    assert |st.deaths| == |st.births| && (|st.births| > 0 ==> st.deaths[|st.births| - 1] <= st.now);
    FutureLifeEmpty(st.calls, |st.births|);
    CallsOfOneMore(st.calls, call, |st.births|);
    CallRecorded(st, st', call);
  }

  lemma CallsOfOneMore(calls: seq<Call>, call: Call, life: nat)
    ensures CallsOf(calls + [call], life) == CallsOf(calls, life) + if call.life == life then 1 else 0
  {
    assert (calls + [call])[..|calls|] == calls;
  }

  lemma CallRecorded(st: State, st': State, call: Call)
    requires CallsInLives(st) && st'.calls == st.calls + [call] && st'.now == st.now && st'.deaths == st.deaths
    requires |st.births| <= |st'.births| && st'.births[..|st.births|] == st.births
    requires call.life < |st'.births| && st'.births[call.life] <= call.at <= st'.now
    requires call.life < |st'.deaths| ==> call.at < st'.deaths[call.life]
    ensures CallsInLives(st')
  {
    forall k | 0 <= k < |st.births|
      ensures st'.births[k] == st.births[k]
    {
      assert st'.births[..|st.births|][k] == st.births[k];
    }
  }

  lemma LaterIncr(st: State, window: Time)
    requires 0 < window && LivesApart(st, window) && CounterTracks(st) && CallsInLives(st)
    requires Alive(st.counter, st.now) != Gone
    ensures var st' := Do(st, RunIncr, window);
            LivesApart(st', window) && CounterTracks(st') && CallsInLives(st')
  {
    hide Ranked, CallsOf;
    var st' := Do(st, RunIncr, window);
    var call := Call(st.now, |st.births| - 1, st'.counter.count);
    assert st'.births == st.births && st'.deaths == st.deaths && st'.calls == st.calls + [call];
    CallsOfOneMore(st.calls, call, |st.births| - 1);
    CallRecorded(st, st', call);
  }

  lemma IncrRanked(st: State, window: Time)
    requires 0 < window && Inv(st, window)
    ensures Ranked(Do(st, RunIncr, window).calls)
  {
    hide LivesApart, Incr;
    IncrStep(st, window);
    var st' := Do(st, RunIncr, window);
    var n := |st.calls|;
    assert st'.calls[..n] == st.calls && st'.calls[..n + 1] == st'.calls;
    forall i | 0 <= i < |st'.calls|
      ensures st'.calls[i].rank == CallsOf(st'.calls[..i + 1], st'.calls[i].life)
    {
      if i < n {
        assert st'.calls[..i + 1] == st.calls[..i + 1];
      } else {
        assert st'.counter.count == CallsOf(st'.calls, |st'.births| - 1);
      }
    }
  }

  lemma {:induction false} InvRun(first: State, steps: seq<Step>, last: State, window: Time)
    requires 0 < window && Inv(first, window) && Run(first, steps, last, window)
    ensures Inv(last, window)
    decreases |steps|
  {
    if steps != [] {
      InvStep(first, steps[0], window);
      InvRun(Do(first, steps[0], window), steps[1..], last, window);
    }
  }

  /** One lifetime of the key admits exactly the first `limit` of its calls. */
  lemma {:induction false} AdmittedOfOneLife(calls: seq<Call>, life: nat, limit: int)
    requires 0 < limit && Ranked(calls)
    ensures AdmittedOf(calls, life, limit) == if CallsOf(calls, life) <= limit then CallsOf(calls, life) else limit
  {
    if calls != [] {
      var front := calls[..|calls| - 1];
      assert calls[..|calls|] == calls;
      forall i | 0 <= i < |front|
        ensures front[i].rank == CallsOf(front[..i + 1], front[i].life)
      {
        assert front[..i + 1] == calls[..i + 1];
      }
      AdmittedOfOneLife(front, life, limit);
    }
  }

  /** With a whole lifetime between them, two calls are more than a window apart. */
  lemma FarLives(st: State, window: Time, i: nat, j: nat)
    requires 0 < window && Inv(st, window) && i < |st.calls| && j < |st.calls|
    requires st.calls[j].life >= st.calls[i].life + 2
    ensures st.calls[j].at - st.calls[i].at > window
  {
    hide CallsOf, Ranked, CounterTracks;
    var l, m := st.calls[i].life, st.calls[j].life;
    BirthsOrdered(st, window, l + 2, m);
    assert st.deaths[l] <= st.births[l + 1];
    assert st.births[l + 1] + window <= st.deaths[l + 1] <= st.births[l + 2];
  }

  /** Two calls at most one window apart are in the same lifetime or in neighbouring ones. */
  lemma NeighbouringLives(st: State, window: Time, i: nat, j: nat)
    requires 0 < window && Inv(st, window) && i < |st.calls| && j < |st.calls|
    requires st.calls[j].at - st.calls[i].at <= window
    ensures st.calls[j].life <= st.calls[i].life + 1
  {
    hide Inv;
    if st.calls[j].life >= st.calls[i].life + 2 {
      FarLives(st, window, i, j);
    }
  }

  lemma {:induction false} BirthsOrdered(st: State, window: Time, k: nat, m: nat)
    requires 0 < window && LivesApart(st, window) && k <= m < |st.births|
    ensures st.births[k] <= st.births[m]
    decreases m - k
  {
    if k < m {
      BirthsOrdered(st, window, k, m - 1);
      NextBirth(st, window, m - 1);
    }
  }

  lemma NextBirth(st: State, window: Time, k: nat)
    requires 0 < window && LivesApart(st, window) && k + 1 < |st.births|
    ensures st.births[k] + window <= st.births[k + 1]
  {
    assert st.births[k] + window <= st.deaths[k] <= st.births[k + 1];
  }

  lemma {:induction false} BetweenTwoLives(calls: seq<Call>, from: Time, to: Time, limit: int, life: nat)
    requires forall i :: 0 <= i < |calls| && from <= calls[i].at <= to ==> life <= calls[i].life <= life + 1
    ensures AdmittedBetween(calls, from, to, limit) <= AdmittedOf(calls, life, limit) + AdmittedOf(calls, life + 1, limit)
  {
    if calls != [] {
      BetweenTwoLives(calls[..|calls| - 1], from, to, limit, life);
    }
  }

  /** Some call of the interval is in the earliest lifetime the interval touches. */
  lemma {:induction false} EarliestLife(calls: seq<Call>, from: Time, to: Time) returns (found: bool, first: nat)
    ensures found ==> first < |calls| && from <= calls[first].at <= to
    ensures forall i :: 0 <= i < |calls| && from <= calls[i].at <= to ==> found && calls[first].life <= calls[i].life
  {
    found, first := false, 0;
    if calls != [] {
      var n := |calls| - 1;
      found, first := EarliestLife(calls[..n], from, to);
      if from <= calls[n].at <= to && (!found || calls[n].life < calls[first].life) {
        found, first := true, n;
      }
    }
  }

  lemma BoundInState(st: State, limit: int, window: Time, from: Time, to: Time)
    requires to <= from + window && 0 < limit && 0 < window && Inv(st, window)
    ensures AdmittedBetween(st.calls, from, to, limit) <= 2 * limit
  {
    RankedFromInv(st, window);
    forall life: nat
      ensures AdmittedOf(st.calls, life, limit) <= limit
    {
      AdmittedOfOneLife(st.calls, life, limit);
    }
    hide Inv, AdmittedOf, CallsOf, AdmittedBetween, Ranked;
    var found, first := EarliestLife(st.calls, from, to);
    var life := if found then st.calls[first].life else 0;
    forall i | 0 <= i < |st.calls| && from <= st.calls[i].at <= to
      ensures life <= st.calls[i].life <= life + 1
    {
      NeighbouringLives(st, window, first, i);
    }
    BetweenTwoLives(st.calls, from, to, limit, life);
    assert AdmittedOf(st.calls, life, limit) <= limit && AdmittedOf(st.calls, life + 1, limit) <= limit;
  }

  /** However calls and the delayed EXPIRE interleave, no interval of at most one window admits more than twice the limit. */
  lemma SlidingWindowBound(init: State, steps: seq<Step>, st: State, limit: int, window: Time, from: Time, to: Time)
    requires to <= from + window && 0 < limit && 0 < window && Init(init) && Run(init, steps, st, window)
    ensures AdmittedBetween(st.calls, from, to, limit) <= 2 * limit
    ensures forall life: nat ::
              AdmittedOf(st.calls, life, limit) == if CallsOf(st.calls, life) <= limit then CallsOf(st.calls, life) else limit
  {
    hide Inv, Run, AdmittedOf, CallsOf, AdmittedBetween;
    InvInit(init, window);
    InvRun(init, steps, st, window);
    BoundInState(st, limit, window, from, to);
    RankedFromInv(st, window);
    forall life: nat
      ensures AdmittedOf(st.calls, life, limit) == if CallsOf(st.calls, life) <= limit then CallsOf(st.calls, life) else limit
    {
      AdmittedOfOneLife(st.calls, life, limit);
    }
  }

  lemma InvInit(init: State, window: Time)
    requires Init(init)
    ensures Inv(init, window)
  {
  }

  lemma RankedFromInv(st: State, window: Time)
    requires Inv(st, window)
    ensures Ranked(st.calls)
  {
  }

  // ---- a lifetime ends ----

  /** Each EXPIRE runs within `lag` of the first INCR of its lifetime. */
  ghost predicate ExpiresWithin(lag: Time, first: State, steps: seq<Step>, window: Time)
    decreases |steps|
  {
    steps == [] || (Enabled(first, steps[0]) ==>
                      && (steps[0].RunExpire? && first.births != [] ==> first.now <= first.births[|first.births| - 1] + lag)
                      && ExpiresWithin(lag, Do(first, steps[0], window), steps[1..], window))
  }

  ghost predicate LivesShort(st: State, most: Time) {
    |st.deaths| <= |st.births| && forall k :: 0 <= k < |st.deaths| ==> st.deaths[k] <= st.births[k] + most
  }

  lemma {:induction false} ShortRun(first: State, steps: seq<Step>, last: State, window: Time, lag: Time)
    requires 0 < window && Inv(first, window) && Run(first, steps, last, window) && ExpiresWithin(lag, first, steps, window)
    requires LivesShort(first, lag + window)
    ensures Inv(last, window) && LivesShort(last, lag + window)
    decreases |steps|
  {
    hide CounterTracks, CallsInLives, Ranked, Incr, Expire;
    if steps != [] {
      var next := Do(first, steps[0], window);
      InvStep(first, steps[0], window);
      assert LivesApart(first, window) && LivesApart(next, window);
      assert LivesShort(next, lag + window) by {
        assert next.births[..|first.births|] == first.births;
        assert next.deaths[..|first.deaths|] == first.deaths;
      }
      hide Inv, Do, Enabled;
      ShortRun(next, steps[1..], last, window, lag);
    }
  }

  /**
   A lifetime of the key lasts from one window to one window and the lag of its EXPIRE; a caller who waits that long after
   the first call of the present lifetime is the first of a new one, and let through.
   */
  lemma LivesEnd(init: State, steps: seq<Step>, st: State, window: Time, lag: Time)
    requires 0 < window && Init(init) && Run(init, steps, st, window) && ExpiresWithin(lag, init, steps, window)
    ensures |st.deaths| <= |st.births|
    ensures forall k :: 0 <= k < |st.deaths| ==> st.births[k] + window <= st.deaths[k] <= st.births[k] + lag + window
    ensures !st.pending && (st.births != [] ==> st.now >= st.births[|st.births| - 1] + lag + window) ==>
              var next := Do(st, RunIncr, window);
              next.births == st.births + [st.now] && next.calls[|st.calls|].rank == 1
  {
    hide Inv, Run, ExpiresWithin, Do;
    InvInit(init, window);
    ShortRun(init, steps, st, window, lag);
    LivesAreLong(st, window);
    if !st.pending && (st.births != [] ==> st.now >= st.births[|st.births| - 1] + lag + window) {
      NextLife(st, window, lag + window);
    }
  }

  lemma LivesAreLong(st: State, window: Time)
    requires Inv(st, window)
    ensures |st.deaths| <= |st.births| && forall k :: 0 <= k < |st.deaths| ==> st.births[k] + window <= st.deaths[k]
  {
    hide CounterTracks, CallsInLives, Ranked;
  }

  lemma NextLife(st: State, window: Time, most: Time)
    requires Inv(st, window) && LivesShort(st, most) && !st.pending
    requires st.births != [] ==> st.now >= st.births[|st.births| - 1] + most
    ensures var next := Do(st, RunIncr, window);
            next.births == st.births + [st.now] && next.calls[|st.calls|].rank == 1
  {
    hide LivesApart, CallsInLives, Ranked, CallsOf;
    assert CounterTracks(st);
    assert Alive(st.counter, st.now) == Gone;
  }

  // ---- the limiter itself ----

  /** The call just made is ranked by the calls of its lifetime so far. */
  lemma LastRank(st: State, window: Time)
    requires Inv(st, window) && st.calls != []
    ensures var call := st.calls[|st.calls| - 1]; call.rank == CallsOf(st.calls, call.life)
  {
    hide LivesApart, CounterTracks, CallsInLives, CallsOf;
    var n := |st.calls|;
    assert st.calls[..n - 1 + 1] == st.calls;
  }

  /** With no EXPIRE owed, a key that is there expires, after at least one call. */
  lemma CounterKind(st: State, window: Time)
    requires Inv(st, window) && !st.pending
    ensures !st.counter.Counting? && (st.counter.Expiring? ==> st.counter.count >= 1)
  {
    hide LivesApart, CallsInLives, Ranked, CallsOf;
  }

  /** One call of the limiter with no other in between, as steps. */
  ghost function CallSteps(now: Time, later: Time, first: bool): seq<Step> {
    [Tick(now), RunIncr] + if first then [Tick(later), RunExpire] else []
  }

  lemma CallRuns(st: State, now: Time, later: Time, window: Time) returns (next: State)
    requires 0 < window && Inv(st, window) && !st.pending && st.now <= now <= later
    ensures var counted := Incr(st.counter, now);
            && Run(st, CallSteps(now, later, counted.count == 1), next, window) && Inv(next, window) && !next.pending
            && next.counter == (if counted.count == 1 then Expire(counted, later, window) else counted)
            && next.now == (if counted.count == 1 then later else now)
            && |next.calls| == |st.calls| + 1 && next.calls[..|st.calls|] == st.calls
            && next.calls[|st.calls|].at == now && next.calls[|st.calls|].rank == counted.count
  {
    hide Inv, CallsOf;
    var s1 := Do(st, Tick(now), window);
    var s2 := Do(s1, RunIncr, window);
    InvStep(st, Tick(now), window);
    InvStep(s1, RunIncr, window);
    var steps := CallSteps(now, later, Incr(st.counter, now).count == 1);
    assert s2.counter == Incr(st.counter, now);
    if s2.counter.count == 1 {
      var s3 := Do(s2, Tick(later), window);
      next := Do(s3, RunExpire, window);
      InvStep(s2, Tick(later), window);
      InvStep(s3, RunExpire, window);
      assert steps == [Tick(now), RunIncr, Tick(later), RunExpire];
      assert steps[1..] == [RunIncr, Tick(later), RunExpire] && steps[2..] == [Tick(later), RunExpire];
      assert steps[3..] == [RunExpire] && steps[1..][1..] == steps[2..] && steps[2..][1..] == steps[3..] && steps[3..][1..] == [];
      assert Run(s3, steps[3..], next, window);
      assert Run(s2, steps[2..], next, window);
      assert Run(s1, steps[1..], next, window);
    } else {
      next := s2;
      assert steps == [Tick(now), RunIncr];
      assert steps[1..] == [RunIncr] && steps[1..][1..] == [];
      assert Run(s1, steps[1..], next, window);
    }
  }

  /** `history` is the state of the machine above that the calls so far have led to. */
  class RateLimiter {
    const limit: int
    const window: Time
    var counter: Counter
    ghost var history: State

    ghost predicate Valid()
      reads this
    {
      0 < limit && 0 < window && Inv(history, window) && !history.pending && history.counter == counter
    }

    constructor (limit: int, window: Time, ghost now: Time)
      requires 0 < limit && 0 < window
      ensures Valid() && this.limit == limit && this.window == window && counter == Gone
      ensures history.now == now && history.calls == []
    {
      this.limit, this.window := limit, window;
      counter := Gone;
      history := State(now, Gone, false, [], [], []);
      new;
      hide Inv;
      InvInit(history, window);
    }

    /**
     INCR runs at `now`, the EXPIRE of a first count at `later`. A call is let through exactly while the calls of the
     present lifetime of the key, itself included, are within the limit; and no window-long interval of all calls so
     far lets through more than twice the limit.
     */
    method EnforceRateLimitCounter(now: Time, later: Time) returns (verdict: Verdict, ghost steps: seq<Step>)
      requires Valid() && history.now <= now <= later
      modifies this
      ensures Valid() && Run(old(history), steps, history, window)
      ensures |history.calls| == |old(history).calls| + 1 && history.calls[..|old(history).calls|] == old(history).calls
      ensures var call := history.calls[|old(history).calls|];
              call.at == now && (verdict == Allowed <==> CallsOf(history.calls, call.life) <= limit)
      ensures old(counter).Gone? || (old(counter).Expiring? && old(counter).expiresAt <= now) ==>
                verdict == Allowed && counter == Expiring(1, later + window)
      ensures old(counter).Expiring? && now < old(counter).expiresAt ==>
                && counter == Expiring(old(counter).count + 1, old(counter).expiresAt)
                && (verdict == Allowed <==> old(counter).count + 1 <= limit)
      ensures !old(counter).Counting?
      ensures forall from, to :: to <= from + window ==> AdmittedBetween(history.calls, from, to, limit) <= 2 * limit
    {
      hide Inv, Run, CallsOf, AdmittedBetween;
      CounterKind(history, window);
      ghost var counted := Incr(counter, now);
      steps := CallSteps(now, later, counted.count == 1);
      ghost var next := CallRuns(history, now, later, window);
      counter := Incr(counter, now);
      var currentCount := counter.count;
      if currentCount == 1 {
        counter := Expire(counter, later, window);
      }
      history := next;
      LastRank(history, window);
      forall from, to | to <= from + window
        ensures AdmittedBetween(history.calls, from, to, limit) <= 2 * limit
      {
        BoundInState(history, limit, window, from, to);
      }
      verdict := if currentCount > limit then TooManyRequests else Allowed;
    }
  }
}

/**
 The replay window against the retention of event rows: a signed message is accepted once for ever exactly when its
 window closes before the row that remembers it can be deleted.
 */
module WebhookReplay {
  import opened Clock
  import opened Wrappers
  import opened WebhookSecurity
  import opened Webhooks
  import opened WebhookRuns

  /** No request takes longer than `lag` from its first query to its event insert. */
  ghost predicate Within(st: State, lag: nat) {
    forall r :: r in st.requests && (st.requests[r].at == Locking || st.requests[r].at == Checking || st.requests[r].at.Persisting?) ==>
      st.now <= st.requests[r].begun + lag
  }

  ghost predicate PromptRun(s: Settings, lag: nat, first: State, steps: seq<Step>, last: State)
    decreases |steps|
  {
    && Within(first, lag)
    && if steps == [] then first == last
       else Enabled(s, first, steps[0]) && PromptRun(s, lag, Do(s, first, steps[0]), steps[1..], last)
  }

  /** The retention period outlasts the window of a message, from its opening to the end of its last second. */
  ghost predicate WindowClosesFirst(s: Settings, lag: nat) {
    (2 * s.policy.tolerance + 1) * SECOND + 2 * lag < s.Retention() + 2
  }

  // ---- what is known of a filed event ----

  ghost predicate Checked(s: Settings, delivery: Delivery, event: Event, begun: Time, verifiedAt: Time) {
    && begun <= verifiedAt
    && VerifyInbound(delivery, s.policy, Seconds(verifiedAt)).Success?
    && s.parse(delivery.body) == Some(event)
  }

  ghost predicate RequestSound(s: Settings, st: State, r: nat) {
    r in st.requests ==>
      && st.requests[r].begun <= st.now
      && (st.requests[r].at.Persisting? ==>
            && Checked(s, st.requests[r].delivery, st.requests[r].at.event, st.requests[r].begun, st.requests[r].at.verifiedAt)
            && st.requests[r].at.verifiedAt <= st.now)
  }

  ghost predicate FilingSound(s: Settings, lag: nat, filing: Filing) {
    && Checked(s, filing.delivery, filing.event, filing.begun, filing.verifiedAt)
    && filing.begun <= filing.receivedAt
    && filing.verifiedAt <= filing.filedAt <= filing.begun + lag
  }

  ghost predicate Sound(s: Settings, lag: nat, st: State) {
    && (forall r :: RequestSound(s, st, r))
    && (forall filing :: filing in st.filed ==> FilingSound(s, lag, filing))
  }

  lemma CheckPasses(s: Settings, lag: nat, st: State, r: nat, limited: bool)
    requires Sound(s, lag, st) && Enabled(s, st, Check(r, limited))
    ensures Sound(s, lag, Do(s, st, Check(r, limited)))
  {
    hide VerifyInbound, FilingSound;
    var st' := Do(s, st, Check(r, limited));
    assert st'.filed == st.filed && st'.now == st.now;
    assert RequestSound(s, st, r);
    assert RequestSound(s, st', r);
    assert forall q :: q != r ==> (q in st'.requests <==> q in st.requests) && (q in st.requests ==> st'.requests[q] == st.requests[q]);
    hide Do, Checked;
    forall q | q != r
      ensures RequestSound(s, st', q)
    {
      assert RequestSound(s, st, q);
    }
  }

  lemma PersistFilesChecked(s: Settings, lag: nat, st: State, r: nat, received: Time)
    requires Sound(s, lag, st) && Within(st, lag) && Enabled(s, st, Persist(r, received))
    ensures Sound(s, lag, Do(s, st, Persist(r, received)))
  {
    var st' := Do(s, st, Persist(r, received));
    assert st' == PersistedBy(st, r, received);
    hide Do, Checked;
    assert RequestSound(s, st, r);
    forall q
      ensures RequestSound(s, st', q)
    {
      assert RequestSound(s, st, q);
    }
  }

  /** A step that inserts no event leaves each request's opening time, and the facts of its checks. */
  lemma RequestsMove(s: Settings, st: State, step: Step, q: nat)
    requires Enabled(s, st, step) && !step.Persist? && !step.Check?
    ensures var st' := Do(s, st, step);
            && st'.filed == st.filed && st.now <= st'.now
            && (q in st'.requests ==>
                  || (q in st.requests && st'.requests[q] == st.requests[q])
                  || (!st'.requests[q].at.Persisting? && st'.requests[q].begun <= st'.now)
                  || (q in st.requests && !st'.requests[q].at.Persisting? && st'.requests[q].begun == st.requests[q].begun))
  {
    hide Cached, CleanedRecords, PersistedBy, CleanedEvents;
  }

  lemma SoundStep(s: Settings, lag: nat, st: State, step: Step)
    requires Sound(s, lag, st) && Within(st, lag) && Enabled(s, st, step)
    ensures Sound(s, lag, Do(s, st, step))
  {
    if step.Persist? {
      PersistFilesChecked(s, lag, st, step.r, step.received);
    } else if step.Check? {
      CheckPasses(s, lag, st, step.r, step.limited);
    } else {
      hide Checked, FilingSound, Do, Enabled;
      var st' := Do(s, st, step);
      forall q
        ensures RequestSound(s, st', q)
        ensures st'.filed == st.filed
      {
        assert RequestSound(s, st, q);
        RequestsMove(s, st, step, q);
      }
      assert RequestSound(s, st', 0);
    }
  }

  lemma {:induction false} SoundRun(s: Settings, lag: nat, first: State, steps: seq<Step>, last: State)
    requires Sound(s, lag, first) && Inv(s, first) && PromptRun(s, lag, first, steps, last)
    ensures Sound(s, lag, last) && Inv(s, last)
    decreases |steps|
  {
    hide Sound, Within, EventBooks, AcceptedBooks, AnswerBooks, Enabled, Do;
    if steps != [] {
      SoundStep(s, lag, first, steps[0]);
      InvOneStep(s, first, steps[0]);
      SoundRun(s, lag, Do(s, first, steps[0]), steps[1..], last);
    }
  }

  lemma InvOneStep(s: Settings, st: State, step: Step)
    requires Inv(s, st) && Enabled(s, st, step)
    ensures Inv(s, Do(s, st, step))
  {
    hide EventBooks, AcceptedBooks, AnswerBooks, Enabled, Do;
    BooksStep(s, st, step);
    ClaimsStep(s, st, step);
    AnswersStep(s, st, step);
  }

  /** Seconds apart on the wall clock, compared in microseconds. */
  lemma InsideWindow(v: Time, timestamp: int, tolerance: nat)
    requires Distance(Seconds(v), timestamp) <= tolerance
    ensures (timestamp - tolerance) * SECOND <= v < (timestamp + tolerance + 1) * SECOND
  {
  }

  /** Two rows of one signature: the window would have to be open longer than the first row is kept. */
  lemma TwoRowsNeedTime(s: Settings, lag: nat, a: Filing, b: Filing, deletedAt: Time)
    requires FilingSound(s, lag, a) && FilingSound(s, lag, b) && InjectiveFor(s.policy.hmac, s.policy.secret)
    requires PresentedSignature(a.delivery) == PresentedSignature(b.delivery)
    requires a.event == b.event ==> a.receivedAt + s.Retention() < deletedAt <= b.filedAt
    ensures !WindowClosesFirst(s, lag)
  {
    hide VerifyInbound, PresentedSignature, Distance;
    var t := VerifyInbound(a.delivery, s.policy, Seconds(a.verifiedAt)).value;
    SignatureBindsMessage(a.delivery, b.delivery, s.policy, Seconds(a.verifiedAt), Seconds(b.verifiedAt));
    VerifiedMeansSigned(a.delivery, s.policy, Seconds(a.verifiedAt));
    VerifiedMeansSigned(b.delivery, s.policy, Seconds(b.verifiedAt));
    InsideWindow(a.verifiedAt, t, s.policy.tolerance);
    InsideWindow(b.verifiedAt, t, s.policy.tolerance);
  }

  /** In any run of prompt requests no signature ever gets a second event row, whatever keys, locks and cleanups do. */
  lemma SignatureAcceptedOnce(s: Settings, lag: nat, first: State, steps: seq<Step>, last: State)
    requires InjectiveFor(s.policy.hmac, s.policy.secret) && WindowClosesFirst(s, lag)
    requires Init(first) && PromptRun(s, lag, first, steps, last)
    ensures forall i, j :: 0 <= i < j < |last.filed| ==>
              PresentedSignature(last.filed[i].delivery) != PresentedSignature(last.filed[j].delivery)
  {
    FirstState(s, first);
    assert Sound(s, lag, first);
    SoundRun(s, lag, first, steps, last);
    hide PromptRun, Inv, FilingSound, WindowClosesFirst, PresentedSignature, InjectiveFor;
    forall i: nat, j: nat | i < j < |last.filed|
      ensures PresentedSignature(last.filed[i].delivery) != PresentedSignature(last.filed[j].delivery)
    {
      if PresentedSignature(last.filed[i].delivery) == PresentedSignature(last.filed[j].delivery) {
        LaterRow(s, last, i, j);
        TwoRowsNeedTime(s, lag, last.filed[i], last.filed[j], if i in last.deletedAt then last.deletedAt[i] else 0);
        assert false;
      }
    }
  }

  /** At most one "accepted" response is ever stored for a signature; an accepted response is one with an event row. */
  lemma SignatureAnsweredOnce(s: Settings, lag: nat, first: State, steps: seq<Step>, last: State)
    requires InjectiveFor(s.policy.hmac, s.policy.secret) && WindowClosesFirst(s, lag)
    requires Init(first) && PromptRun(s, lag, first, steps, last)
    ensures forall k :: 0 <= k < |last.stored| ==> Backed(last.stored[k].record.body, last.stored[k].row, last.filed)
    ensures forall k, m :: 0 <= k < m < |last.stored| ==> !SameSignature(last, k, m)
  {
    hide PromptRun, WindowClosesFirst, PresentedSignature, InjectiveFor, Sound, EventBooks, AnswerBooks;
    SignatureAcceptedOnce(s, lag, first, steps, last);
    PromptKeepsInv(s, lag, first, steps, last);
    forall k, m | 0 <= k < m < |last.stored|
      ensures !SameSignature(last, k, m)
    {
      var i, j := last.stored[k].row, last.stored[m].row;
      assert i.Some? ==> i != j;
    }
  }

  /** Two stored responses accept on the strength of one signature. */
  ghost predicate SameSignature(st: State, k: int, m: int)
    requires 0 <= k < |st.stored| && 0 <= m < |st.stored|
  {
    && st.stored[k].row.Some? && st.stored[m].row.Some?
    && st.stored[k].row.value < |st.filed| && st.stored[m].row.value < |st.filed|
    && PresentedSignature(st.filed[st.stored[k].row.value].delivery) == PresentedSignature(st.filed[st.stored[m].row.value].delivery)
  }

  lemma PromptKeepsInv(s: Settings, lag: nat, first: State, steps: seq<Step>, last: State)
    requires Init(first) && PromptRun(s, lag, first, steps, last)
    ensures Inv(s, last)
  {
    FirstState(s, first);
    assert Sound(s, lag, first);
    SoundRun(s, lag, first, steps, last);
  }

  lemma LaterRow(s: Settings, st: State, i: nat, j: nat)
    requires Inv(s, st) && i < j < |st.filed|
    ensures st.filed[i].event == st.filed[j].event ==>
              i in st.deletedAt && st.filed[i].receivedAt + s.Retention() < st.deletedAt[i] <= st.filed[j].filedAt
  {
    hide AcceptedBooks, AnswerBooks;
    assert Superseded(st, i, j) && RowAccounted(s, st, i);
  }

  // ---- the condition is exact ----

  lemma {:induction false} Extend(s: Settings, lag: nat, first: State, steps: seq<Step>, st: State, step: Step)
    requires PromptRun(s, lag, first, steps, st) && Enabled(s, st, step) && Within(Do(s, st, step), lag)
    ensures PromptRun(s, lag, first, steps + [step], Do(s, st, step))
    decreases |steps|
  {
    hide Enabled, Do, Within;
    if steps == [] {
      assert [step][1..] == [];
      assert PromptRun(s, lag, Do(s, st, step), [], Do(s, st, step));
    } else {
      Extend(s, lag, Do(s, first, steps[0]), steps[1..], st, step);
      assert (steps + [step])[1..] == steps[1..] + [step];
    }
  }

  lemma WithinFor(st: State, lag: nat, r: nat)
    requires OthersFiled(st, r)
    requires r in st.requests ==> st.now <= st.requests[r].begun + lag
    ensures Within(st, lag)
  {
  }

  /** Every other request has its event row behind it. */
  ghost predicate OthersFiled(st: State, r: nat) {
    forall q :: q in st.requests && q != r ==> st.requests[q].at.Storing? || st.requests[q].at == Releasing
  }

  /** A request of an unused key gets as far as its checks. */
  lemma Opens(s: Settings, lag: nat, first: State, steps: seq<Step>, st: State, r: nat, scope: string, delivery: Delivery)
    returns (more: seq<Step>, next: State)
    requires PromptRun(s, lag, first, steps, st) && r !in st.requests && OthersFiled(st, r)
    requires scope !in st.locks && scope !in st.tables.records
    ensures PromptRun(s, lag, first, more, next)
    ensures next == st.(locks := st.locks + {scope}, requests := st.requests[r := Request(scope, delivery, st.now, Checking)])
  {
    var s1 := st.(requests := st.requests[r := Request(scope, delivery, st.now, Reading)]);
    var s2 := st.(requests := st.requests[r := Request(scope, delivery, st.now, Locking)]);
    next := st.(locks := st.locks + {scope}, requests := st.requests[r := Request(scope, delivery, st.now, Checking)]);
    assert s1 == Do(s, st, Start(r, scope, delivery));
    assert Enabled(s, s1, Read(r, st.now)) && s2 == Do(s, s1, Read(r, st.now));
    assert Enabled(s, s2, Lock(r)) && next == Do(s, s2, Lock(r));
    WithinFor(s1, lag, r);
    WithinFor(s2, lag, r);
    WithinFor(next, lag, r);
    hide Do;
    Extend(s, lag, first, steps, st, Start(r, scope, delivery));
    Extend(s, lag, first, steps + [Start(r, scope, delivery)], s1, Read(r, st.now));
    Extend(s, lag, first, steps + [Start(r, scope, delivery)] + [Read(r, st.now)], s2, Lock(r));
    more := steps + [Start(r, scope, delivery)] + [Read(r, st.now)] + [Lock(r)];
  }

  lemma Waits(s: Settings, lag: nat, first: State, steps: seq<Step>, st: State, r: nat, to: Time)
    requires PromptRun(s, lag, first, steps, st) && OthersFiled(st, r) && st.now <= to
    requires r in st.requests ==> to <= st.requests[r].begun + lag || st.requests[r].at == Releasing
    ensures PromptRun(s, lag, first, steps + [Tick(to)], st.(now := to))
  {
    Extend(s, lag, first, steps, st, Tick(to));
  }

  lemma Passes(s: Settings, lag: nat, first: State, steps: seq<Step>, st: State, r: nat)
    requires PromptRun(s, lag, first, steps, st) && OthersFiled(st, r)
    requires At(st, r, Checking) && st.now <= st.requests[r].begun + lag
    requires Refusal(s, st.requests[r].delivery, false, st.now).None?
    ensures PromptRun(s, lag, first, steps + [Check(r, false)],
                      Goes(st, r, Persisting(s.parse(st.requests[r].delivery.body).value, st.now)))
  {
    hide VerifyInbound;
    var next := Goes(st, r, Persisting(s.parse(st.requests[r].delivery.body).value, st.now));
    assert next == Do(s, st, Check(r, false));
    WithinFor(next, lag, r);
    hide Do;
    Extend(s, lag, first, steps, st, Check(r, false));
  }

  lemma Files(s: Settings, lag: nat, first: State, steps: seq<Step>, st: State, r: nat)
    requires PromptRun(s, lag, first, steps, st) && OthersFiled(st, r)
    requires r in st.requests && st.requests[r].at.Persisting? && st.requests[r].begun <= st.now <= st.requests[r].begun + lag
    ensures PromptRun(s, lag, first, steps + [Persist(r, st.requests[r].begun)], PersistedBy(st, r, st.requests[r].begun))
  {
    var step := Persist(r, st.requests[r].begun);
    var next := PersistedBy(st, r, st.requests[r].begun);
    assert next == Do(s, st, step);
    WithinFor(next, lag, r);
    hide Do;
    Extend(s, lag, first, steps, st, step);
  }

  /** The response is stored, and with it the answer given. */
  lemma Answers(s: Settings, lag: nat, first: State, steps: seq<Step>, st: State, r: nat)
    requires PromptRun(s, lag, first, steps, st) && OthersFiled(st, r)
    requires r in st.requests && st.requests[r].at.Storing? && st.requests[r].scope !in st.tables.records
    ensures PromptRun(s, lag, first, steps + [Store(r, st.now)], StoredBy(s, st, r, st.now))
  {
    var next := StoredBy(s, st, r, st.now);
    assert next == Do(s, st, Store(r, st.now));
    hide Do;
    Extend(s, lag, first, steps, st, Store(r, st.now));
  }

  /** Request 0 is accepted, its event row filed under an early `received_at`. */
  lemma AcceptedEarly(s: Settings, lag: nat, delivery: Delivery, event: Event, start: Time, early: Time)
    returns (first: State, steps: seq<Step>, st: State)
    requires s.parse(delivery.body) == Some(event)
    requires start <= early <= start + lag && Refusal(s, delivery, false, early).None?
    ensures Init(first) && PromptRun(s, lag, first, steps, st)
    ensures st.now == early && st.tables.events == map[event := start] && st.tables.records.Keys == {"a"} && st.locks == {"a"}
    ensures st.requests.Keys == {0} && st.requests[0].at == Releasing
    ensures |st.filed| == 1 && st.filed[0].delivery == delivery && st.filed[0].event == event
    ensures |st.stored| == 1 && st.stored[0].row == Some(0) && st.stored[0].record.body == Body(Accepted, event)
  {
    hide Refusal, PromptRun, Do;
    first := State(start, Tables(map[], map[]), {}, map[], [], map[], map[], [], []);
    steps, st := [], first;
    StartsEmpty(s, lag, first);
    steps, st := Opens(s, lag, first, steps, st, 0, "a", delivery);
    Waits(s, lag, first, steps, st, 0, early);
    steps, st := steps + [Tick(early)], st.(now := early);
    steps, st := Accepts(s, lag, first, steps, st, 0, event);
  }

  /** Its row is deleted just before request 1 repeats the delivery. */
  lemma ReplayRun(s: Settings, lag: nat, delivery: Delivery, event: Event, start: Time, early: Time, late: Time)
    returns (first: State, steps: seq<Step>, last: State)
    requires s.parse(delivery.body) == Some(event)
    requires start <= early <= start + lag && early <= late && start + s.Retention() < late + lag
    requires Refusal(s, delivery, false, early).None? && Refusal(s, delivery, false, late).None?
    ensures Init(first) && PromptRun(s, lag, first, steps, last)
    ensures |last.filed| == 2 && last.filed[0].delivery == last.filed[1].delivery == delivery
    ensures |last.stored| == 2 && last.stored[0].row == Some(0) && last.stored[1].row == Some(1)
    ensures last.stored[0].record.body == last.stored[1].record.body == Body(Accepted, event)
  {
    hide Refusal, PromptRun, Do, Init;
    var st;
    first, steps, st := AcceptedEarly(s, lag, delivery, event, start, early);
    Waits(s, lag, first, steps, st, 0, late);
    steps, st := steps + [Tick(late)], st.(now := late);
    steps, st := Opens(s, lag, first, steps, st, 1, "b", delivery);
    Passes(s, lag, first, steps, st, 1);
    steps, st := steps + [Check(1, false)], Goes(st, 1, Persisting(event, late));
    Waits(s, lag, first, steps, st, 1, late + lag);
    steps, st := steps + [Tick(late + lag)], st.(now := late + lag);
    steps, st := CleansUp(s, lag, first, steps, st, 1);
    assert event !in st.tables.events;
    Files(s, lag, first, steps, st, 1);
    steps, st := steps + [Persist(1, late)], PersistedBy(st, 1, late);
    Answers(s, lag, first, steps, st, 1);
    steps, last := steps + [Store(1, st.now)], StoredBy(s, st, 1, st.now);
  }

  /** From its checks to its stored response, at one clock reading. */
  lemma Accepts(s: Settings, lag: nat, first: State, steps: seq<Step>, st: State, r: nat, event: Event)
    returns (more: seq<Step>, next: State)
    requires PromptRun(s, lag, first, steps, st) && OthersFiled(st, r) && At(st, r, Checking)
    requires st.requests[r].begun <= st.now <= st.requests[r].begun + lag
    requires Refusal(s, st.requests[r].delivery, false, st.now).None? && s.parse(st.requests[r].delivery.body) == Some(event)
    requires event !in st.tables.events && st.requests[r].scope !in st.tables.records
    ensures PromptRun(s, lag, first, more, next)
    ensures var persisting := Goes(st, r, Persisting(event, st.now));
            next == StoredBy(s, PersistedBy(persisting, r, st.requests[r].begun), r, st.now)
  {
    hide Refusal, PromptRun, Do;
    Passes(s, lag, first, steps, st, r);
    var persisting := Goes(st, r, Persisting(event, st.now));
    Files(s, lag, first, steps + [Check(r, false)], persisting, r);
    var storing := PersistedBy(persisting, r, st.requests[r].begun);
    Answers(s, lag, first, steps + [Check(r, false)] + [Persist(r, st.requests[r].begun)], storing, r);
    more := steps + [Check(r, false)] + [Persist(r, st.requests[r].begun)] + [Store(r, st.now)];
    next := StoredBy(s, storing, r, st.now);
  }

  lemma StartsEmpty(s: Settings, lag: nat, first: State)
    requires Init(first)
    ensures PromptRun(s, lag, first, [], first)
  {
  }

  lemma CleansUp(s: Settings, lag: nat, first: State, steps: seq<Step>, st: State, r: nat)
    returns (more: seq<Step>, next: State)
    requires PromptRun(s, lag, first, steps, st) && OthersFiled(st, r)
    requires r in st.requests ==> st.now <= st.requests[r].begun + lag
    ensures PromptRun(s, lag, first, more, next) && next == EventsCleaned(st, st.now - s.Retention())
  {
    var step := CleanEvents(st.now - s.Retention());
    next := EventsCleaned(st, st.now - s.Retention());
    assert next == Do(s, st, step);
    WithinFor(next, lag, r);
    hide Do;
    Extend(s, lag, first, steps, st, step);
    more := steps + [step];
  }

  /** If the window does not close first, some prompt run accepts one delivery twice. */
  lemma ReplayPossible(s: Settings, lag: nat, body: seq<Byte>, event: Event) returns (first: State, steps: seq<Step>, last: State)
    requires s.policy.secret != "" && HexDigests(s.policy.hmac, s.policy.secret) && s.parse(body) == Some(event)
    requires !WindowClosesFirst(s, lag)
    ensures Init(first) && PromptRun(s, lag, first, steps, last)
    ensures |last.filed| == 2 && last.filed[0].delivery == last.filed[1].delivery
    ensures |last.stored| == 2 && last.stored[0].row == Some(0) && last.stored[1].row == Some(1)
    ensures last.stored[0].record.body == last.stored[1].record.body == Body(Accepted, event)
  {
    hide PromptRun, VerifyInbound, HexDigests;
    var timestamp: int := s.policy.tolerance + lag;
    var digest := s.policy.hmac(s.policy.secret, SigningMessage(timestamp, body));
    var delivery := Delivery(body, Some(digest), Some(IntText(timestamp)));
    var early: Time := lag * SECOND;
    var late: Time := early + (2 * s.policy.tolerance + 1) * SECOND - 1;
    assert Seconds(early) == lag && Seconds(late) == lag + 2 * s.policy.tolerance;
    SignThenVerify(timestamp, body, s.policy, Seconds(early));
    SignThenVerify(timestamp, body, s.policy, Seconds(late));
    first, steps, last := ReplayRun(s, lag, delivery, event, early - lag, early, late);
  }

  /** No run of prompt requests files two events for one signature. */
  ghost predicate NeverFiledTwice(s: Settings, lag: nat) {
    forall first, steps, last :: Init(first) && PromptRun(s, lag, first, steps, last) ==>
      forall i, j :: 0 <= i < j < |last.filed| ==>
        PresentedSignature(last.filed[i].delivery) != PresentedSignature(last.filed[j].delivery)
  }

  /** No run of prompt requests stores two "accepted" responses for one signature. */
  ghost predicate NeverAnsweredTwice(s: Settings, lag: nat) {
    forall first, steps, last :: Init(first) && PromptRun(s, lag, first, steps, last) ==>
      forall k, m :: 0 <= k < m < |last.stored| ==> !SameSignature(last, k, m)
  }

  /**
   A signature is accepted at most once for ever, in the event table and in the responses, if and only if its window
   closes first: with requests at one clock reading (`lag == 0`), exactly when the retention period is longer than
   twice the tolerance.
   */
  lemma AcceptedOnceIff(s: Settings, lag: nat, body: seq<Byte>, event: Event)
    requires s.policy.secret != "" && HexDigests(s.policy.hmac, s.policy.secret)
    requires InjectiveFor(s.policy.hmac, s.policy.secret) && s.parse(body) == Some(event)
    ensures NeverFiledTwice(s, lag) <==> WindowClosesFirst(s, lag)
    ensures NeverAnsweredTwice(s, lag) <==> WindowClosesFirst(s, lag)
    ensures lag == 0 ==> (WindowClosesFirst(s, lag) <==> 2 * s.policy.tolerance < s.retentionDays * 86_400)
  {
    hide PromptRun, HexDigests, InjectiveFor, PresentedSignature;
    assert lag == 0 ==> (WindowClosesFirst(s, lag) <==> 2 * s.policy.tolerance < s.retentionDays * 86_400);
    if WindowClosesFirst(s, lag) {
      hide WindowClosesFirst;
      forall first, steps, last | Init(first) && PromptRun(s, lag, first, steps, last)
        ensures forall i, j :: 0 <= i < j < |last.filed| ==>
                  PresentedSignature(last.filed[i].delivery) != PresentedSignature(last.filed[j].delivery)
        ensures forall k, m :: 0 <= k < m < |last.stored| ==> !SameSignature(last, k, m)
      {
        SignatureAcceptedOnce(s, lag, first, steps, last);
        SignatureAnsweredOnce(s, lag, first, steps, last);
      }
    } else {
      hide WindowClosesFirst;
      var first, steps, last := ReplayPossible(s, lag, body, event);
      assert PresentedSignature(last.filed[0].delivery) == PresentedSignature(last.filed[1].delivery);
      assert SameSignature(last, 0, 1);
    }
  }
}

/** How many e-mails a password-reset job can send, and exactly when it can still send another. */
module ResetEmails {
  import opened UnusedKeys
  import opened Wrappers
  import opened PasswordReset

  /** One delivery of a job up to its e-mail. */
  ghost function Delivery(h: nat, user: int, jobId: string, hash: string): seq<Step> {
    [Start(h, user, Some(jobId)), LookUpMarker(h), LookUpRow(h), Load(h, hash), Send(h, true)]
  }

  ghost function At(st: State, h: nat, handler: Handler): State {
    st.(handlers := st.handlers[h := handler])
  }

  /** A handler of an unfinished job goes from one stage to the next. */
  lemma DeliveryStages(st: State, h: nat, user: int, jobId: string, hash: string)
    requires user in st.active && jobId !in st.markers && jobId !in st.completions && hash !in st.rows
    ensures var s := At(st, h, CheckingMarker(user, Some(jobId)));
            Enabled(s, LookUpMarker(h)) && Do(s, LookUpMarker(h)) == At(st, h, CheckingRow(user, jobId))
    ensures var s := At(st, h, CheckingRow(user, jobId));
            Enabled(s, LookUpRow(h)) && Do(s, LookUpRow(h)) == At(st, h, LoadingUser(user, Some(jobId)))
    ensures var s := At(st, h, LoadingUser(user, Some(jobId)));
            Enabled(s, Load(h, hash)) && Do(s, Load(h, hash)) == At(st, h, Sending(user, hash, Some(jobId)))
    ensures var s := At(st, h, Sending(user, hash, Some(jobId)));
            && Enabled(s, Send(h, true))
            && Do(s, Send(h, true)) ==
                 At(st, h, Committing(user, hash, Some(jobId))).(emails := st.emails + [Token(user, hash, Some(jobId))])
  {
  }

  lemma DeliveryRuns(st: State, h: nat, user: int, jobId: string, hash: string) returns (next: State)
    requires h !in st.handlers && user in st.active && jobId !in st.markers && jobId !in st.completions && hash !in st.rows
    ensures Run(st, Delivery(h, user, jobId, hash), next)
    ensures next == At(st, h, Committing(user, hash, Some(jobId))).(emails := st.emails + [Token(user, hash, Some(jobId))])
  {
    var job := Some(jobId);
    var steps := Delivery(h, user, jobId, hash);
    var s1 := At(st, h, CheckingMarker(user, job));
    assert Enabled(st, steps[0]) && s1 == Do(st, steps[0]);
    DeliveryStages(st, h, user, jobId, hash);
    hide Do, Enabled, At;
    next := Do(At(st, h, Sending(user, hash, job)), Send(h, true));
    assert steps[5..] == [] && steps[0..] == steps;
    RunStep(At(st, h, Sending(user, hash, job)), steps, 4, next, next);
    RunStep(At(st, h, LoadingUser(user, job)), steps, 3, At(st, h, Sending(user, hash, job)), next);
    RunStep(At(st, h, CheckingRow(user, jobId)), steps, 2, At(st, h, LoadingUser(user, job)), next);
    RunStep(s1, steps, 1, At(st, h, CheckingRow(user, jobId)), next);
    RunStep(st, steps, 0, s1, next);
  }

  lemma RunStep(st: State, steps: seq<Step>, i: nat, next: State, last: State)
    requires i < |steps| && Enabled(st, steps[i]) && next == Do(st, steps[i]) && Run(next, steps[i + 1..], last)
    ensures Run(st, steps[i..], last)
  {
    hide Do, Enabled;
    assert steps[i..][1..] == steps[i + 1..];
  }

  lemma {:induction false} RunsJoin(first: State, steps: seq<Step>, middle: State, more: seq<Step>, last: State)
    requires Run(first, steps, middle) && Run(middle, more, last)
    ensures Run(first, steps + more, last)
    decreases |steps|
  {
    hide Do, Enabled;
    if steps == [] {
      assert steps + more == more;
    } else {
      RunsJoin(Do(first, steps[0]), steps[1..], middle, more, last);
      assert (steps + more)[1..] == steps[1..] + more;
    }
  }

  // ---- counting the e-mails of a job ----

  ghost function EmailsFor(emails: seq<Token>, job: string): nat {
    if emails == [] then 0
    else EmailsFor(emails[..|emails| - 1], job) + if emails[|emails| - 1].job == Some(job) then 1 else 0
  }

  lemma EmailsPush(emails: seq<Token>, token: Token, job: string)
    ensures EmailsFor(emails + [token], job) == EmailsFor(emails, job) + if token.job == Some(job) then 1 else 0
  {
    assert (emails + [token])[..|emails|] == emails;
  }

  function JobOf(handler: Handler): Option<string> {
    match handler
    case CheckingMarker(_, job) => job
    case CheckingRow(_, jobId) => Some(jobId)
    case FoundDone(jobId) => Some(jobId)
    case LoadingUser(_, job) => job
    case Sending(_, _, job) => job
    case Committing(_, _, job) => job
    case Marking(jobId) => Some(jobId)
  }

  /** What keeps a job to one e-mail. */
  datatype Clause = NoOverlap | NoDeathAfterEmail | HashFree

  ghost predicate Keeps(clause: Clause, job: string, st: State, step: Step) {
    match clause
    case NoOverlap => step.Start? && step.job == Some(job) ==> forall h :: h in st.handlers ==> JobOf(st.handlers[h]) != Some(job)
    case NoDeathAfterEmail =>
      step.Die? && step.h in st.handlers && JobOf(st.handlers[step.h]) == Some(job) ==> !st.handlers[step.h].Committing?
    case HashFree =>
      step.Commit? && step.h in st.handlers && st.handlers[step.h].Committing? && st.handlers[step.h].job == Some(job) ==>
        st.handlers[step.h].hash !in st.rows
  }

  ghost predicate Throughout(clause: Clause, job: string, first: State, steps: seq<Step>)
    decreases |steps|
  {
    steps == [] || (Enabled(first, steps[0]) ==>
                      Keeps(clause, job, first, steps[0]) && Throughout(clause, job, Do(first, steps[0]), steps[1..]))
  }

  /** A handler that has found no completion row and has not yet left that behind. */
  predicate Unfinished(handler: Handler) {
    handler.LoadingUser? || handler.Sending? || handler.Committing?
  }

  /** One handler of the job at a time; one past its row check means no completion row; an e-mail means a commit done or due. */
  ghost predicate OneEmail(st: State, job: string) {
    && (forall g, h :: g in st.handlers && h in st.handlers && JobOf(st.handlers[g]) == JobOf(st.handlers[h]) == Some(job) ==> g == h)
    && (forall h :: h in st.handlers && JobOf(st.handlers[h]) == Some(job) && Unfinished(st.handlers[h]) ==> job !in st.completions)
    && EmailsFor(st.emails, job) <= 1
    && (EmailsFor(st.emails, job) == 1 ==>
          job in st.completions || exists h :: h in st.handlers && JobOf(st.handlers[h]) == Some(job) && st.handlers[h].Committing?)
  }

  lemma SameForEmails(st: State, st': State, job: string)
    requires OneEmail(st, job) && st'.handlers == st.handlers && st'.completions == st.completions && st'.emails == st.emails
    ensures OneEmail(st', job)
  {
  }

  lemma Advances(st: State, h: nat, next: Handler, job: string)
    requires OneEmail(st, job) && h in st.handlers && !st.handlers[h].Committing? && JobOf(next) == JobOf(st.handlers[h])
    requires JobOf(next) == Some(job) && Unfinished(next) ==> job !in st.completions
    ensures OneEmail(At(st, h, next), job)
  {
    hide EmailsFor, JobOf, Unfinished;
    var st' := At(st, h, next);
    if EmailsFor(st.emails, job) == 1 && job !in st.completions {
      var g :| g in st.handlers && JobOf(st.handlers[g]) == Some(job) && st.handlers[g].Committing?;
      assert g in st'.handlers && st'.handlers[g] == st.handlers[g];
    }
  }

  lemma Leaves(st: State, h: nat, job: string)
    requires OneEmail(st, job) && h in st.handlers
    requires JobOf(st.handlers[h]) == Some(job) && st.handlers[h].Committing? ==> job in st.completions
    ensures OneEmail(st.(handlers := st.handlers - {h}), job)
  {
    hide EmailsFor, JobOf, Unfinished;
    var st' := st.(handlers := st.handlers - {h});
    if EmailsFor(st.emails, job) == 1 && job !in st.completions {
      var g :| g in st.handlers && JobOf(st.handlers[g]) == Some(job) && st.handlers[g].Committing?;
      assert g in st'.handlers && st'.handlers[g] == st.handlers[g];
    }
  }

  lemma Starts(st: State, h: nat, user: int, job: Option<string>, watched: string)
    requires OneEmail(st, watched) && h !in st.handlers && Keeps(NoOverlap, watched, st, Start(h, user, job))
    ensures OneEmail(At(st, h, CheckingMarker(user, job)), watched)
  {
    hide EmailsFor;
    var st' := At(st, h, CheckingMarker(user, job));
    if EmailsFor(st.emails, watched) == 1 && watched !in st.completions {
      var g :| g in st.handlers && JobOf(st.handlers[g]) == Some(watched) && st.handlers[g].Committing?;
      assert g in st'.handlers && st'.handlers[g] == st.handlers[g];
    }
  }

  lemma Sends(st: State, h: nat, job: string)
    requires OneEmail(st, job) && Enabled(st, Send(h, true))
    ensures OneEmail(Do(st, Send(h, true)), job)
  {
    hide EmailsFor;
    var handler := st.handlers[h];
    var token := Token(handler.user, handler.hash, handler.job);
    var st' := Do(st, Send(h, true));
    EmailsPush(st.emails, token, job);
    if handler.job == Some(job) {
      assert forall g :: g in st.handlers && JobOf(st.handlers[g]) == Some(job) ==> !st.handlers[g].Committing?;
      assert h in st'.handlers && st'.handlers[h].Committing?;
    } else if EmailsFor(st.emails, job) == 1 && job !in st.completions {
      var g :| g in st.handlers && JobOf(st.handlers[g]) == Some(job) && st.handlers[g].Committing?;
      assert g in st'.handlers && st'.handlers[g] == st.handlers[g];
    }
  }

  lemma Commits(st: State, h: nat, job: string)
    requires OneEmail(st, job) && Enabled(st, Commit(h)) && Keeps(HashFree, job, st, Commit(h))
    ensures OneEmail(Do(st, Commit(h)), job)
  {
    hide EmailsFor;
    var handler := st.handlers[h];
    var st' := Do(st, Commit(h));
    if handler.job == Some(job) {
      assert job in st'.completions;
      assert forall g :: g in st'.handlers && g != h ==> g in st.handlers && st'.handlers[g] == st.handlers[g];
    } else if EmailsFor(st.emails, job) == 1 && job !in st.completions {
      var g :| g in st.handlers && JobOf(st.handlers[g]) == Some(job) && st.handlers[g].Committing?;
      assert g in st'.handlers && st'.handlers[g] == st.handlers[g];
    }
  }

  lemma OneEmailStep(st: State, step: Step, job: string)
    requires Inv(st) && OneEmail(st, job) && Enabled(st, step) && forall clause :: Keeps(clause, job, st, step)
    ensures OneEmail(Do(st, step), job)
  {
    assert Keeps(NoOverlap, job, st, step) && Keeps(NoDeathAfterEmail, job, st, step) && Keeps(HashFree, job, st, step);
    var st' := Do(st, step);
    match step
    case Start(h, user, started) => Starts(st, h, user, started, job);
    case Send(h, delivered) =>
      if delivered {
        Sends(st, h, job);
      } else {
        hide OneEmail;
        Leaves(st, h, job);
        SameForEmails(st.(handlers := st.handlers - {h}), st', job);
      }
    case Commit(h) => Commits(st, h, job);
    case Die(h) => Leaves(st, h, job);
    case LookUpMarker(h) => Advances(st, h, st'.handlers[h], job);
    case LookUpRow(h) => Advances(st, h, st'.handlers[h], job);
    case Load(h, hash) =>
      if h in st'.handlers {
        Advances(st, h, st'.handlers[h], job);
      } else {
        hide OneEmail;
        Leaves(st, h, job);
        SameForEmails(st.(handlers := st.handlers - {h}), st', job);
      }
    case RefreshMarker(h) =>
      hide OneEmail;
      Leaves(st, h, job);
      SameForEmails(st.(handlers := st.handlers - {h}), st', job);
    case Mark(h) =>
      hide OneEmail;
      Leaves(st, h, job);
      SameForEmails(st.(handlers := st.handlers - {h}), st', job);
    case _ => SameForEmails(st, st', job);
  }

  lemma StepKeepsInv(st: State, step: Step)
    requires Inv(st) && Enabled(st, step)
    ensures Inv(Do(st, step))
  {
    hide Inv, Do, Enabled;
    if step.Commit? {
      CommitStep(st, step.h);
    } else {
      OtherStep(st, step);
    }
  }

  lemma {:induction false} OneEmailRun(first: State, steps: seq<Step>, last: State, job: string)
    requires Inv(first) && OneEmail(first, job) && Run(first, steps, last)
    requires forall clause :: Throughout(clause, job, first, steps)
    ensures OneEmail(last, job)
    decreases |steps|
  {
    hide Inv, OneEmail, Do, Enabled, Keeps;
    if steps != [] {
      forall clause
        ensures Keeps(clause, job, first, steps[0]) && Throughout(clause, job, Do(first, steps[0]), steps[1..])
      {
        assert Throughout(clause, job, first, steps);
      }
      StepKeepsInv(first, steps[0]);
      OneEmailStep(first, steps[0], job);
      OneEmailRun(Do(first, steps[0]), steps[1..], last, job);
    }
  }

  /**
   A job sends at most one e-mail in any run in which none of its handlers starts while another is live, none dies
   between its e-mail and its commit, and none finds its token hash taken at the commit.
   */
  lemma AtMostOneEmail(first: State, steps: seq<Step>, last: State, job: string)
    requires Init(first) && Run(first, steps, last) && forall clause :: Throughout(clause, job, first, steps)
    ensures EmailsFor(last.emails, job) <= 1
  {
    hide Run, Throughout;
    InitialInv(first);
    assert OneEmail(first, job);
    OneEmailRun(first, steps, last, job);
  }

  // ---- each clause is needed ----

  predicate Concerns(clause: Clause, step: Step) {
    match clause
    case NoOverlap => step.Start?
    case NoDeathAfterEmail => step.Die?
    case HashFree => step.Commit?
  }

  lemma {:induction false} Unconcerned(clause: Clause, job: string, first: State, steps: seq<Step>)
    requires forall i :: 0 <= i < |steps| ==> !Concerns(clause, steps[i])
    ensures Throughout(clause, job, first, steps)
    decreases |steps|
  {
    hide Do, Enabled;
    if steps != [] && Enabled(first, steps[0]) {
      assert !Concerns(clause, steps[0]);
      Unconcerned(clause, job, Do(first, steps[0]), steps[1..]);
    }
  }

  lemma {:induction false} ThroughoutJoin(clause: Clause, job: string, first: State, steps: seq<Step>, middle: State, more: seq<Step>)
    requires Run(first, steps, middle) && Throughout(clause, job, first, steps) && Throughout(clause, job, middle, more)
    ensures Throughout(clause, job, first, steps + more)
    decreases |steps|
  {
    hide Do, Enabled, Keeps;
    if steps == [] {
      assert steps + more == more;
    } else {
      ThroughoutJoin(clause, job, Do(first, steps[0]), steps[1..], middle, more);
      assert (steps + more)[1..] == steps[1..] + more;
    }
  }

  /** A delivery keeps every clause for a job that has no live handler, and for any other job. */
  lemma DeliveryKeeps(clause: Clause, watched: string, st: State, h: nat, user: int, jobId: string, hash: string)
    requires jobId != watched || clause != NoOverlap || forall g :: g in st.handlers ==> JobOf(st.handlers[g]) != Some(watched)
    ensures Throughout(clause, watched, st, Delivery(h, user, jobId, hash))
  {
    hide Do;
    var steps := Delivery(h, user, jobId, hash);
    if Enabled(st, steps[0]) {
      Unconcerned(clause, watched, Do(st, steps[0]), steps[1..]);
      assert Keeps(clause, watched, st, steps[0]);
    }
  }

  /** Deliver once more: the run goes on, the clauses stay kept, and one more e-mail is out. */
  lemma DeliverAgain(first: State, steps: seq<Step>, st: State, h: nat, user: int, jobId: string, hash: string, watched: string,
                     kept: set<Clause>) returns (more: seq<Step>, next: State)
    requires Run(first, steps, st) && forall clause :: clause in kept ==> Throughout(clause, watched, first, steps)
    requires h !in st.handlers && user in st.active && jobId !in st.markers && jobId !in st.completions && hash !in st.rows
    requires jobId != watched || NoOverlap !in kept || forall g :: g in st.handlers ==> JobOf(st.handlers[g]) != Some(watched)
    ensures Run(first, more, next) && forall clause :: clause in kept ==> Throughout(clause, watched, first, more)
    ensures next == At(st, h, Committing(user, hash, Some(jobId))).(emails := st.emails + [Token(user, hash, Some(jobId))])
    ensures EmailsFor(next.emails, watched) == EmailsFor(st.emails, watched) + if jobId == watched then 1 else 0
  {
    hide Run, Delivery, Throughout, EmailsFor;
    next := DeliveryRuns(st, h, user, jobId, hash);
    more := steps + Delivery(h, user, jobId, hash);
    RunsJoin(first, steps, st, Delivery(h, user, jobId, hash), next);
    EmailsPush(st.emails, Token(user, hash, Some(jobId)), watched);
    forall clause | clause in kept
      ensures Throughout(clause, watched, first, more)
    {
      DeliveryKeeps(clause, watched, st, h, user, jobId, hash);
      ThroughoutJoin(clause, watched, first, steps, st, Delivery(h, user, jobId, hash));
    }
  }

  /** One more step that none of the kept clauses objects to. */
  lemma StepOn(first: State, steps: seq<Step>, st: State, step: Step, watched: string, kept: set<Clause>)
    requires Run(first, steps, st) && forall clause :: clause in kept ==> Throughout(clause, watched, first, steps)
    requires Enabled(st, step) && forall clause :: clause in kept ==> Keeps(clause, watched, st, step)
    ensures Run(first, steps + [step], Do(st, step))
    ensures forall clause :: clause in kept ==> Throughout(clause, watched, first, steps + [step])
  {
    hide Do, Enabled, Keeps;
    assert [step][1..] == [];
    assert Run(Do(st, step), [], Do(st, step));
    assert Run(st, [step], Do(st, step));
    RunsJoin(first, steps, st, [step], Do(st, step));
    forall clause | clause in kept
      ensures Throughout(clause, watched, first, steps + [step])
    {
      assert Throughout(clause, watched, st, [step]);
      ThroughoutJoin(clause, watched, first, steps, st, [step]);
    }
  }

  /** Whichever clause is dropped, some run that keeps the other two sends two e-mails. */
  lemma SecondEmailWithout(dropped: Clause, job: string) returns (first: State, steps: seq<Step>, last: State)
    ensures Init(first) && Run(first, steps, last) && EmailsFor(last.emails, job) == 2
    ensures forall clause :: clause != dropped ==> Throughout(clause, job, first, steps)
  {
    hide Run, Throughout, EmailsFor, Do;
    var kept := {NoOverlap, NoDeathAfterEmail, HashFree} - {dropped};
    first := State({1}, map[], {}, {}, map[], [], [], []);
    steps := [];
    NothingYet(first, job);
    var st;
    steps, st := DeliverAgain(first, steps, first, 0, 1, job, "a", job, kept);
    match dropped {
      case NoOverlap =>
        steps, last := DeliverAgain(first, steps, st, 1, 1, job, "b", job, kept);
      case NoDeathAfterEmail =>
        StepOn(first, steps, st, Die(0), job, kept);
        var dead := st.(handlers := map[]);
        assert Do(st, Die(0)) == dead by {
          Dies(st, 0);
          assert st.handlers - {0} == map[];
        }
        steps, last := DeliverAgain(first, steps + [Die(0)], dead, 0, 1, job, "b", job, kept);
      case HashFree =>
        steps, last := SecondAfterConflict(first, steps, st, job, kept);
    }
    forall clause | clause != dropped
      ensures Throughout(clause, job, first, steps)
    {
      assert clause in kept;
    }
  }

  lemma NothingYet(first: State, job: string)
    requires Init(first)
    ensures Run(first, [], first) && EmailsFor(first.emails, job) == 0
    ensures forall clause :: Throughout(clause, job, first, [])
  {
  }

  lemma Dies(st: State, h: nat)
    requires h in st.handlers
    ensures Do(st, Die(h)) == st.(handlers := st.handlers - {h})
  {
  }

  /** Another job commits the same hash in between; the first commit is rolled back and the job delivered again. */
  lemma SecondAfterConflict(first: State, steps: seq<Step>, st: State, job: string, kept: set<Clause>)
    returns (more: seq<Step>, last: State)
    requires Run(first, steps, st) && kept == {NoOverlap, NoDeathAfterEmail}
    requires forall clause :: clause in kept ==> Throughout(clause, job, first, steps)
    requires st.handlers == map[0 := Committing(1, "a", Some(job))] && 1 in st.active
    requires st.markers == {} && st.completions == {} && st.rows == map[] && EmailsFor(st.emails, job) == 1
    ensures Run(first, more, last) && EmailsFor(last.emails, job) == 2
    ensures forall clause :: clause in kept ==> Throughout(clause, job, first, more)
  {
    hide Run, Throughout, EmailsFor, Do;
    var other := job + "2";
    var both;
    more, both := DeliverAgain(first, steps, st, 1, 1, other, "a", job, kept);
    StepOn(first, more, both, Commit(1), job, kept);
    var won := Committed(both, 1);
    assert Do(both, Commit(1)) == won by {
      CommitsBy(both, 1);
    }
    StepOn(first, more + [Commit(1)], won, Commit(0), job, kept);
    var lost := Ends(won, 0, Some(job), ConcurrentCompletion);
    assert Do(won, Commit(0)) == lost by {
      CommitsBy(won, 0);
    }
    assert forall g :: g in lost.handlers ==> g == 1 && JobOf(lost.handlers[g]) == Some(other);
    more, last := DeliverAgain(first, more + [Commit(1)] + [Commit(0)], lost, 0, 1, job, "b", job, kept);
  }

  lemma CommitsBy(st: State, h: nat)
    requires Enabled(st, Commit(h))
    ensures Do(st, Commit(h)) == Committed(st, h)
  {
  }

  // ---- when no further e-mail can follow ----

  /** The job has its completion row, and no handler of it is on its way to an e-mail. */
  ghost predicate Quiet(st: State, job: string) {
    && job in st.completions
    && forall h :: h in st.handlers && JobOf(st.handlers[h]) == Some(job) ==> !st.handlers[h].LoadingUser? && !st.handlers[h].Sending?
  }

  lemma QuietStep(st: State, step: Step, job: string)
    requires Quiet(st, job) && Enabled(st, step)
    ensures Quiet(Do(st, step), job) && EmailsFor(Do(st, step).emails, job) == EmailsFor(st.emails, job)
  {
    hide EmailsFor;
    if step.Send? {
      var handler := st.handlers[step.h];
      EmailsPush(st.emails, Token(handler.user, handler.hash, handler.job), job);
      assert JobOf(handler) != Some(job);
    }
    forall h | h in Do(st, step).handlers && JobOf(Do(st, step).handlers[h]) == Some(job)
      ensures !Do(st, step).handlers[h].LoadingUser? && !Do(st, step).handlers[h].Sending?
    {
      assert h in st.handlers ==> (JobOf(st.handlers[h]) == Some(job) ==> !st.handlers[h].LoadingUser? && !st.handlers[h].Sending?);
    }
  }

  lemma {:induction false} QuietRun(first: State, steps: seq<Step>, last: State, job: string)
    requires Quiet(first, job) && Run(first, steps, last)
    ensures EmailsFor(last.emails, job) == EmailsFor(first.emails, job)
    decreases |steps|
  {
    hide Quiet, Do, Enabled, EmailsFor;
    if steps != [] {
      QuietStep(first, steps[0], job);
      QuietRun(Do(first, steps[0]), steps[1..], last, job);
    }
  }

  lemma UnusedHash(rows: map<string, Token>) returns (hash: string)
    ensures hash !in rows
  {
    var longest := LongestOf(rows.Keys);
    hash := seq(longest + 1, i => 'x');
  }

  lemma {:induction false} LongestOf(hashes: set<string>) returns (longest: nat)
    ensures forall hash :: hash in hashes ==> |hash| <= longest
    decreases hashes
  {
    if hashes == {} {
      longest := 0;
    } else {
      var hash :| hash in hashes;
      var rest := LongestOf(hashes - {hash});
      assert hashes == hashes - {hash} + {hash};
      longest := if |hash| <= rest then rest else |hash|;
    }
  }

  lemma Append(first: State, steps: seq<Step>, st: State, step: Step)
    requires Run(first, steps, st) && Enabled(st, step)
    ensures Run(first, steps + [step], Do(st, step))
  {
    StepOn(first, steps, st, step, "", {});
  }

  /** A handler that has its token row flushed sends its e-mail. */
  lemma SendingSends(first: State, steps: seq<Step>, st: State, h: nat, job: string) returns (more: seq<Step>, last: State)
    requires Run(first, steps, st) && h in st.handlers && st.handlers[h].Sending? && st.handlers[h].job == Some(job)
    ensures Run(first, more, last) && EmailsFor(last.emails, job) == EmailsFor(st.emails, job) + 1
  {
    hide Run, EmailsFor;
    var handler := st.handlers[h];
    more, last := steps + [Send(h, true)], Do(st, Send(h, true));
    Append(first, steps, st, Send(h, true));
    EmailsPush(st.emails, Token(handler.user, handler.hash, handler.job), job);
  }

  /** Unless the job is quiet, some continuation sends it one more e-mail. */
  lemma NotQuietSends(st: State, job: string) returns (steps: seq<Step>, last: State)
    requires Inv(st) && !Quiet(st, job)
    ensures Run(st, steps, last) && EmailsFor(last.emails, job) == EmailsFor(st.emails, job) + 1
  {
    hide Run, EmailsFor, OncePerJob, HasToken;
    EmptyRun(st);
    var hash := UnusedHash(st.rows);
    if job in st.completions {
      var h :| h in st.handlers && JobOf(st.handlers[h]) == Some(job) && (st.handlers[h].LoadingUser? || st.handlers[h].Sending?);
      if st.handlers[h].Sending? {
        steps, last := SendingSends(st, [], st, h, job);
      } else {
        var user := st.handlers[h].user;
        var active := st.(active := {user});
        Append(st, [], st, SetActive({user}));
        assert active == Do(st, SetActive({user}));
        Append(st, [] + [SetActive({user})], active, Load(h, hash));
        steps, last := SendingSends(st, [] + [SetActive({user})] + [Load(h, hash)], Do(active, Load(h, hash)), h, job);
      }
    } else {
      var h := UnusedKey(st.handlers.Keys);
      var active := st.(active := {1});
      Append(st, [], st, SetActive({1}));
      assert active == Do(st, SetActive({1}));
      last := DeliveryRuns(active, h, 1, job, hash);
      steps := [] + [SetActive({1})] + Delivery(h, 1, job, hash);
      RunsJoin(st, [] + [SetActive({1})], active, Delivery(h, 1, job, hash), last);
      EmailsPush(st.emails, Token(1, hash, Some(job)), job);
    }
  }

  lemma EmptyRun(st: State)
    ensures Run(st, [], st)
  {
  }

  /**
   From a reachable state no continuation sends a further e-mail for the job if and only if its completion row is
   there and no handler of it is between its row check and its e-mail.
   */
  lemma NoFurtherEmailIff(init: State, before: seq<Step>, st: State, job: string)
    requires Init(init) && Run(init, before, st)
    ensures (forall steps, last :: Run(st, steps, last) ==> EmailsFor(last.emails, job) == EmailsFor(st.emails, job))
            <==> Quiet(st, job)
  {
    hide Run, EmailsFor, Quiet, Inv;
    InitialInv(init);
    InvRun(init, before, st);
    if Quiet(st, job) {
      forall steps, last | Run(st, steps, last)
        ensures EmailsFor(last.emails, job) == EmailsFor(st.emails, job)
      {
        QuietRun(st, steps, last, job);
      }
    } else {
      var steps, last := NotQuietSends(st, job);
    }
  }

  lemma InitialInv(init: State)
    requires Init(init)
    ensures Inv(init)
  {
    assert init.committed == [];
  }
}

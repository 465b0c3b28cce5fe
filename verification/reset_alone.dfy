/** A password-reset handler that is not interleaved with others ends as the service's method does. */
module ResetAlone {
  import opened Wrappers
  import opened PasswordReset
  import opened ResetEmails

  /** The job is done: its marker is written again if it had expired. */
  lemma DoneAlone(st: State, h: nat, user: int, jobId: string) returns (steps: seq<Step>, last: State)
    requires Inv(st) && h !in st.handlers && jobId in st.completions
    ensures Run(st, steps, last)
    ensures last == st.(markers := st.markers + {jobId}, ended := st.ended + [Ending(Some(jobId), AlreadyCompleted)])
  {
    hide Run;
    var s1 := At(st, h, CheckingMarker(user, Some(jobId)));
    var s2 := At(st, h, CheckingRow(user, jobId));
    var s3 := At(st, h, FoundDone(jobId));
    last := st.(markers := st.markers + {jobId}, ended := st.ended + [Ending(Some(jobId), AlreadyCompleted)]);
    assert s1 == Do(st, Start(h, user, Some(jobId)));
    assert Do(s1, LookUpMarker(h)) == if jobId in st.markers then s3 else s2;
    assert Do(s2, LookUpRow(h)) == s3;
    assert s3.handlers - {h} == st.handlers;
    assert Do(s3, RefreshMarker(h)) == last;
    hide Do;
    EmptyRun(st);
    Append(st, [], st, Start(h, user, Some(jobId)));
    steps := [] + [Start(h, user, Some(jobId))];
    Append(st, steps, s1, LookUpMarker(h));
    steps := steps + [LookUpMarker(h)];
    if jobId !in st.markers {
      Append(st, steps, s2, LookUpRow(h));
      steps := steps + [LookUpRow(h)];
    }
    Append(st, steps, s3, RefreshMarker(h));
    steps := steps + [RefreshMarker(h)];
  }

  /** The job is not done: on to loading the user. */
  lemma LoadsAlone(st: State, h: nat, user: int, job: Option<string>) returns (steps: seq<Step>)
    requires Inv(st) && h !in st.handlers && (job.Some? ==> job.value !in st.completions)
    ensures Run(st, steps, At(st, h, LoadingUser(user, job)))
  {
    hide Run;
    var s1 := At(st, h, CheckingMarker(user, job));
    var s3 := At(st, h, LoadingUser(user, job));
    assert s1 == Do(st, Start(h, user, job));
    EmptyRun(st);
    Append(st, [], st, Start(h, user, job));
    steps := [] + [Start(h, user, job)];
    Append(st, steps, s1, LookUpMarker(h));
    steps := steps + [LookUpMarker(h)];
    if job.None? {
      assert Do(s1, LookUpMarker(h)) == s3;
    } else {
      var s2 := At(st, h, CheckingRow(user, job.value));
      assert Do(s1, LookUpMarker(h)) == s2;
      assert Do(s2, LookUpRow(h)) == s3;
      Append(st, steps, s2, LookUpRow(h));
      steps := steps + [LookUpRow(h)];
    }
  }

  /** The commit goes through, and the marker is written. */
  lemma CommitsAlone(st: State, steps: seq<Step>, sent: State, h: nat, user: int, hash: string, job: Option<string>)
    returns (more: seq<Step>, last: State)
    requires Run(st, steps, At(sent, h, Committing(user, hash, job))) && h !in sent.handlers
    requires hash !in sent.rows && (job.Some? ==> job.value !in sent.completions)
    ensures Run(st, more, last)
    ensures last.handlers == sent.handlers && last.ended == sent.ended + [Ending(job, Created)]
    ensures last.rows == sent.rows[hash := Token(user, hash, job)]
    ensures last.completions == sent.completions + (if job.Some? then {job.value} else {})
    ensures last.markers == sent.markers + (if job.Some? then {job.value} else {})
  {
    hide Run;
    var s1 := At(sent, h, Committing(user, hash, job));
    var s2 := Do(s1, Commit(h));
    Append(st, steps, s1, Commit(h));
    more, last := steps + [Commit(h)], s2;
    assert s1.handlers - {h} == sent.handlers;
    if job.Some? {
      Append(st, more, s2, Mark(h));
      more, last := more + [Mark(h)], Do(s2, Mark(h));
      assert s2.handlers - {h} == sent.handlers;
    }
  }

  /** Outcome, rows, completions and markers: the statements one by one agree with `CreateTokenAndSendEmail`. */
  lemma HandlerAlone(st: State, h: nat, user: int, job: Option<string>, hash: string, delivered: bool)
    returns (steps: seq<Step>, last: State)
    requires Inv(st) && h !in st.handlers
    ensures Run(st, steps, last) && last.handlers == st.handlers
    ensures var outcome := OutcomeOf(job.Some? && job.value in st.completions, user in st.active, hash in st.rows, delivered);
            && last.ended == st.ended + [Ending(job, outcome)]
            && last.rows == (if outcome.Created? then st.rows[hash := Token(user, hash, job)] else st.rows)
            && last.completions == st.completions + (if job.Some? && outcome.Created? then {job.value} else {})
            && last.markers == st.markers + if job.Some? && (outcome.AlreadyCompleted? || outcome.Created?) then {job.value} else {}
  {
    hide Run, Inv;
    if job.Some? && job.value in st.completions {
      steps, last := DoneAlone(st, h, user, job.value);
      return;
    }
    steps := LoadsAlone(st, h, user, job);
    var s3 := At(st, h, LoadingUser(user, job));
    Append(st, steps, s3, Load(h, hash));
    steps := steps + [Load(h, hash)];
    assert s3.handlers - {h} == st.handlers;
    if user !in st.active || hash in st.rows {
      last := Do(s3, Load(h, hash));
      return;
    }
    var s4 := At(st, h, Sending(user, hash, job));
    assert s4 == Do(s3, Load(h, hash));
    assert s4.handlers - {h} == st.handlers;
    Append(st, steps, s4, Send(h, delivered));
    steps := steps + [Send(h, delivered)];
    if !delivered {
      last := Do(s4, Send(h, false));
      return;
    }
    var sent := st.(emails := st.emails + [Token(user, hash, job)]);
    assert At(sent, h, Committing(user, hash, job)) == Do(s4, Send(h, true));
    steps, last := CommitsAlone(st, steps, sent, h, user, hash, job);
  }
}

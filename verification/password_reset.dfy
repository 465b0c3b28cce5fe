/** Password-reset tokens: creation by a queued job, deduplicated by job id, and confirmation. */
module PasswordReset {
  import opened Clock
  import opened Wrappers

  /** A row of `password_reset_tokens`, filed under its unique hash. */
  datatype TokenRow = TokenRow(userId: int, expiresAt: Time, usedAt: Option<Time>)

  datatype Account = Account(active: bool, password: string, tokenVersion: int)

  /** How the handler ends; the last two raise. */
  datatype Outcome = AlreadyCompleted | NoActiveUser | ConcurrentCompletion | Created | DeliveryFailed | HashTaken

  /** `Interrupted` is a process that stops between the two commits of a confirmation. */
  datatype ConfirmResult = Confirmed | InvalidToken | Interrupted

  type Tokens = map<string, TokenRow>

  /** A confirmation is accepted for an unused, unexpired token of an active user. */
  predicate Accepts(accounts: map<int, Account>, tokens: Tokens, hash: string, now: Time) {
    && hash in tokens && tokens[hash].usedAt.None? && now <= tokens[hash].expiresAt
    && tokens[hash].userId in accounts && accounts[tokens[hash].userId].active
  }

  /** Every open token of the user marked used. */
  function UsedUp(tokens: Tokens, user: int, now: Time): Tokens {
    map h | h in tokens :: if tokens[h].userId == user && tokens[h].usedAt.None? then tokens[h].(usedAt := Some(now)) else tokens[h]
  }

  /** The user's new password and next token version. */
  function PasswordChanged(accounts: map<int, Account>, user: int, password: string): map<int, Account>
    requires user in accounts
  {
    accounts[user := accounts[user].(password := password, tokenVersion := accounts[user].tokenVersion + 1)]
  }

  /** How an undisturbed handler ends. */
  function OutcomeOf(done: bool, active: bool, taken: bool, delivered: bool): Outcome {
    if done then AlreadyCompleted
    else if !active then NoActiveUser
    else if taken then HashTaken
    else if !delivered then DeliveryFailed
    else Created
  }

  class PasswordResetService {
    var accounts: map<int, Account>
    var tokens: map<string, TokenRow>
    var completions: set<string>  // unique job ids, never deleted
    var markers: set<string>      // Redis keys that have not expired

    /** The handler run without interference; the marker is only a hint that saves the database lookup. */
    method CreateTokenAndSendEmail(userId: int, jobId: Option<string>, hash: string, expiresAt: Time, delivered: bool)
      returns (outcome: Outcome)
      requires markers <= completions
      modifies this`tokens, this`completions, this`markers
      ensures markers <= completions
      ensures outcome == OutcomeOf(jobId.Some? && jobId.value in old(completions),
                                   userId in accounts && accounts[userId].active, hash in old(tokens), delivered)
      ensures tokens == if outcome.Created? then old(tokens)[hash := TokenRow(userId, expiresAt, None)] else old(tokens)
      ensures completions == old(completions) + if jobId.Some? && outcome.Created? then {jobId.value} else {}
      ensures markers == old(markers) + if jobId.Some? && (outcome.AlreadyCompleted? || outcome.Created?) then {jobId.value} else {}
    {
      if jobId.Some? && (jobId.value in markers || jobId.value in completions) {
        if jobId.value !in markers {
          markers := markers + {jobId.value};
        }
        return AlreadyCompleted;
      }
      if userId !in accounts || !accounts[userId].active {
        return NoActiveUser;
      }
      if hash in tokens {
        return HashTaken;  // flush raises
      }
      if !delivered {
        return DeliveryFailed;
      }
      tokens := tokens[hash := TokenRow(userId, expiresAt, None)];
      if jobId.Some? {
        completions := completions + {jobId.value};
        markers := markers + {jobId.value};
      }
      outcome := Created;
    }

    /**
     The new password and token version are committed first, the used tokens second; a process that stops in between
     leaves the tokens open.
     */
    method ConfirmPasswordReset(hash: string, password: string, now: Time, interrupted: bool) returns (result: ConfirmResult)
      modifies this`tokens, this`accounts
      ensures result == InvalidToken <==> !Accepts(old(accounts), old(tokens), hash, now)
      ensures result == Interrupted <==> Accepts(old(accounts), old(tokens), hash, now) && interrupted
      ensures accounts == if result == InvalidToken then old(accounts)
                          else PasswordChanged(old(accounts), old(tokens)[hash].userId, password)
      ensures tokens == if result == Confirmed then UsedUp(old(tokens), old(tokens)[hash].userId, now) else old(tokens)
      ensures result == InvalidToken <==>
                || hash !in old(tokens) || old(tokens)[hash].usedAt.Some? || old(tokens)[hash].expiresAt < now
                || old(tokens)[hash].userId !in old(accounts) || !old(accounts)[old(tokens)[hash].userId].active
      ensures result != InvalidToken ==>
                var user := old(tokens)[hash].userId;
                && accounts.Keys == old(accounts).Keys
                && accounts[user] == Account(old(accounts)[user].active, password, old(accounts)[user].tokenVersion + 1)
                && forall u :: u in accounts && u != user ==> accounts[u] == old(accounts)[u]
      ensures result == Confirmed ==>
                var user := old(tokens)[hash].userId;
                && tokens.Keys == old(tokens).Keys
                && forall h :: h in tokens ==>
                     tokens[h] == if old(tokens)[h].userId == user && old(tokens)[h].usedAt == None
                                  then TokenRow(user, old(tokens)[h].expiresAt, Some(now)) else old(tokens)[h]
    {
      if hash !in tokens || tokens[hash].usedAt.Some? || tokens[hash].expiresAt < now {
        return InvalidToken;
      }
      var user := tokens[hash].userId;
      if user !in accounts || !accounts[user].active {
        return InvalidToken;
      }
      accounts := PasswordChanged(accounts, user, password);  // commit
      if interrupted {
        return Interrupted;
      }
      tokens := UsedUp(tokens, user, now);  // commit
      result := Confirmed;
    }
  }

  /** After a confirmation none of the user's tokens is accepted again, and nothing changes for other users' tokens. */
  lemma ConfirmedTokensAreSpent(accounts: map<int, Account>, tokens: Tokens, hash: string, password: string, now: Time,
                                other: string, later: Time)
    requires Accepts(accounts, tokens, hash, now)
    ensures var user := tokens[hash].userId;
            var accounts', tokens' := PasswordChanged(accounts, user, password), UsedUp(tokens, user, now);
            Accepts(accounts', tokens', other, later) <==> Accepts(accounts, tokens, other, later) && tokens[other].userId != user
  {
  }

  /** A process that stops between the commits leaves every token as acceptable as before, the one just presented included. */
  lemma InterruptedTokensStayOpen(accounts: map<int, Account>, tokens: Tokens, hash: string, password: string, now: Time,
                                  other: string, later: Time)
    requires Accepts(accounts, tokens, hash, now)
    ensures var accounts' := PasswordChanged(accounts, tokens[hash].userId, password);
            && (Accepts(accounts', tokens, other, later) <==> Accepts(accounts, tokens, other, later))
            && (Accepts(accounts', tokens, hash, later) <==> later <= tokens[hash].expiresAt)
  {
  }

  // ---- the handler interleaved with itself ----

  /** A handler between two of its statements. */
  datatype Handler =
    | CheckingMarker(user: int, job: Option<string>)
    | CheckingRow(user: int, jobId: string)
    | FoundDone(jobId: string)                                        // done; about to refresh the marker
    | LoadingUser(user: int, job: Option<string>)
    | Sending(user: int, hash: string, job: Option<string>)           // token row flushed, not committed
    | Committing(user: int, hash: string, job: Option<string>)        // e-mail delivered
    | Marking(jobId: string)                                          // committed

  datatype Token = Token(user: int, hash: string, job: Option<string>)

  datatype Ending = Ending(job: Option<string>, outcome: Outcome)

  /** `committed`, `emails` and `ended` are history; token rows may be cleaned up, `committed` remembers them. */
  datatype State = State(
    active: set<int>,
    rows: map<string, Token>,
    completions: set<string>,
    markers: set<string>,
    handlers: map<nat, Handler>,
    committed: seq<Token>,
    emails: seq<Token>,
    ended: seq<Ending>)

  /** `Start` may happen for any job any number of times: deliveries, reclaims and retries of the queue are all such starts. */
  datatype Step =
    | Start(h: nat, user: int, job: Option<string>)
    | LookUpMarker(h: nat)
    | LookUpRow(h: nat)
    | RefreshMarker(h: nat)
    | Load(h: nat, hash: string)
    | Send(h: nat, delivered: bool)
    | Commit(h: nat)
    | Mark(h: nat)
    | ExpireMarker(jobId: string)
    | DeleteRows(hashes: set<string>)
    | SetActive(users: set<int>)
    | Die(h: nat)

  ghost predicate Enabled(st: State, step: Step) {
    match step
    case Start(h, _, _) => h !in st.handlers
    case LookUpMarker(h) => h in st.handlers && st.handlers[h].CheckingMarker?
    case LookUpRow(h) => h in st.handlers && st.handlers[h].CheckingRow?
    case RefreshMarker(h) => h in st.handlers && st.handlers[h].FoundDone?
    case Load(h, _) => h in st.handlers && st.handlers[h].LoadingUser?
    case Send(h, _) => h in st.handlers && st.handlers[h].Sending?
    case Commit(h) => h in st.handlers && st.handlers[h].Committing?
    case Mark(h) => h in st.handlers && st.handlers[h].Marking?
    case Die(h) => h in st.handlers
    case _ => true
  }

  ghost function Ends(st: State, h: nat, job: Option<string>, outcome: Outcome): State {
    st.(handlers := st.handlers - {h}, ended := st.ended + [Ending(job, outcome)])
  }

  ghost function Do(st: State, step: Step): State
    requires Enabled(st, step)
  {
    match step
    case Start(h, user, job) => st.(handlers := st.handlers[h := CheckingMarker(user, job)])
    case LookUpMarker(h) =>
      var user, job := st.handlers[h].user, st.handlers[h].job;
      if job.None? then st.(handlers := st.handlers[h := LoadingUser(user, job)])
      else if job.value in st.markers then st.(handlers := st.handlers[h := FoundDone(job.value)])
      else st.(handlers := st.handlers[h := CheckingRow(user, job.value)])
    case LookUpRow(h) =>
      var user, job := st.handlers[h].user, st.handlers[h].jobId;
      if job in st.completions then st.(handlers := st.handlers[h := FoundDone(job)])
      else st.(handlers := st.handlers[h := LoadingUser(user, Some(job))])
    case RefreshMarker(h) =>
      var job := st.handlers[h].jobId;
      Ends(st.(markers := st.markers + {job}), h, Some(job), AlreadyCompleted)
    case Load(h, hash) =>
      var user, job := st.handlers[h].user, st.handlers[h].job;
      if user !in st.active then Ends(st, h, job, NoActiveUser)
      else if hash in st.rows then Ends(st, h, job, HashTaken)
      else st.(handlers := st.handlers[h := Sending(user, hash, job)])
    case Send(h, delivered) =>
      var user, hash, job := st.handlers[h].user, st.handlers[h].hash, st.handlers[h].job;
      if delivered then
        st.(handlers := st.handlers[h := Committing(user, hash, job)], emails := st.emails + [Token(user, hash, job)])
      else
        Ends(st, h, job, DeliveryFailed)
    case Commit(h) => Committed(st, h)
    case Mark(h) =>
      var job := st.handlers[h].jobId;
      Ends(st.(markers := st.markers + {job}), h, Some(job), Created)
    case ExpireMarker(jobId) => st.(markers := st.markers - {jobId})
    case DeleteRows(hashes) => st.(rows := st.rows - hashes)
    case SetActive(users) => st.(active := users)
    case Die(h) => st.(handlers := st.handlers - {h})
  }

  /** Both unique constraints decide: a conflict rolls the whole transaction back. */
  ghost function Committed(st: State, h: nat): State
    requires h in st.handlers && st.handlers[h].Committing?
  {
    var user, hash, job := st.handlers[h].user, st.handlers[h].hash, st.handlers[h].job;
    var token := Token(user, hash, job);
    if hash in st.rows || (job.Some? && job.value in st.completions) then
      Ends(st, h, job, ConcurrentCompletion)
    else
      var done := st.(rows := st.rows[hash := token], committed := st.committed + [token]);
      if job.None? then Ends(done, h, job, Created)
      else done.(completions := st.completions + {job.value}, handlers := st.handlers[h := Marking(job.value)])
  }

  ghost predicate Run(first: State, steps: seq<Step>, last: State)
    decreases |steps|
  {
    if steps == [] then first == last
    else Enabled(first, steps[0]) && Run(Do(first, steps[0]), steps[1..], last)
  }

  ghost predicate Init(st: State) {
    && st.rows == map[] && st.completions == {} && st.markers == {} && st.handlers == map[]
    && st.committed == [] && st.emails == [] && st.ended == []
  }

  ghost predicate HasToken(committed: seq<Token>, jobId: string) {
    exists token :: token in committed && token.job == Some(jobId)
  }

  ghost predicate OncePerJob(committed: seq<Token>) {
    forall k, m :: 0 <= k < m < |committed| && committed[k].job.Some? ==> committed[k].job != committed[m].job
  }

  /** A job is completed exactly when its token was committed. */
  ghost predicate CompletionsMatch(st: State) {
    OncePerJob(st.committed) && forall jobId :: jobId in st.completions <==> HasToken(st.committed, jobId)
  }

  /** A handler about to write a marker has seen its completion row; one about to commit has sent its e-mail. */
  ghost predicate Justified(handler: Handler, completions: set<string>, emails: seq<Token>) {
    match handler
    case FoundDone(jobId) => jobId in completions
    case Marking(jobId) => jobId in completions
    case Committing(user, hash, job) => Token(user, hash, job) in emails
    case _ => true
  }

  ghost predicate HandlersJustified(st: State) {
    forall h :: h in st.handlers ==> Justified(st.handlers[h], st.completions, st.emails)
  }

  /** What a handler that ends with "created" or "already completed" has told its caller. */
  ghost predicate EndingTrue(ending: Ending, completions: set<string>) {
    ending.job.Some? && (ending.outcome.Created? || ending.outcome.AlreadyCompleted?) ==> ending.job.value in completions
  }

  ghost predicate EndingsTrue(st: State) {
    forall ending :: ending in st.ended ==> EndingTrue(ending, st.completions)
  }

  ghost predicate Emailed(st: State) {
    forall token :: token in st.committed ==> token in st.emails
  }

  ghost predicate Inv(st: State) {
    && CompletionsMatch(st)
    && st.markers <= st.completions
    && HandlersJustified(st)
    && EndingsTrue(st)
    && Emailed(st)
  }

  lemma AppendToken(committed: seq<Token>, token: Token)
    requires OncePerJob(committed) && (token.job.Some? ==> !HasToken(committed, token.job.value))
    ensures OncePerJob(committed + [token])
    ensures forall jobId :: HasToken(committed + [token], jobId) <==> HasToken(committed, jobId) || token.job == Some(jobId)
  {
    var more := committed + [token];
    forall k, m | 0 <= k < m < |more| && more[k].job.Some?
      ensures more[k].job != more[m].job
    {
      if m == |committed| && token.job.Some? {
        assert committed[k] in committed;
      }
    }
    forall jobId
      ensures HasToken(more, jobId) <==> HasToken(committed, jobId) || token.job == Some(jobId)
    {
      assert token in more;
      if HasToken(committed, jobId) {
        var t :| t in committed && t.job == Some(jobId);
        assert t in more;
      }
    }
  }

  lemma CommitStep(st: State, h: nat)
    requires Inv(st) && Enabled(st, Commit(h))
    ensures Inv(Do(st, Commit(h)))
  {
    hide OncePerJob, HasToken;
    var st' := Committed(st, h);
    var handler := st.handlers[h];
    var token := Token(handler.user, handler.hash, handler.job);
    assert Justified(handler, st.completions, st.emails);
    if st'.committed != st.committed {
      AppendToken(st.committed, token);
    }
    assert HandlersJustified(st') by {
      forall g | g in st'.handlers && (g != h || g !in st.handlers)
        ensures Justified(st'.handlers[g], st'.completions, st'.emails)
      {
        assert Justified(st.handlers[g], st.completions, st.emails);
      }
    }
  }

  /** Every other step leaves the database's token and completion rows alone. */
  lemma OtherStep(st: State, step: Step)
    requires Inv(st) && Enabled(st, step) && !step.Commit?
    ensures Inv(Do(st, step))
  {
    hide OncePerJob, HasToken;
    var st' := Do(st, step);
    assert CompletionsMatch(st');
    assert HandlersJustified(st') by {
      forall g | g in st'.handlers
        ensures Justified(st'.handlers[g], st'.completions, st'.emails)
      {
        assert g in st.handlers ==> Justified(st.handlers[g], st.completions, st.emails);
      }
    }
    assert st'.markers <= st'.completions && EndingsTrue(st') by {
      forall g | g in st.handlers
        ensures Justified(st.handlers[g], st.completions, st.emails)
      {
      }
    }
  }

  lemma {:induction false} InvRun(first: State, steps: seq<Step>, last: State)
    requires Inv(first) && Run(first, steps, last)
    ensures Inv(last)
    decreases |steps|
  {
    hide Inv, Enabled, Do;
    if steps != [] {
      if steps[0].Commit? {
        CommitStep(first, steps[0].h);
      } else {
        OtherStep(first, steps[0]);
      }
      InvRun(Do(first, steps[0]), steps[1..], last);
    }
  }

  /**
   However often and however concurrently a job is delivered, and however early its Redis marker expires, at most one
   reset token is ever committed for its id; a marker implies a completion row; and a handler that reports the job
   as created or already done leaves a committed, e-mailed token behind.
   */
  lemma TokenCommittedOnce(first: State, steps: seq<Step>, last: State)
    requires Init(first) && Run(first, steps, last)
    ensures forall k, m :: 0 <= k < m < |last.committed| && last.committed[k].job.Some? ==> last.committed[k].job != last.committed[m].job
    ensures forall jobId :: jobId in last.markers ==> jobId in last.completions
    ensures forall jobId :: jobId in last.completions ==>
              exists token :: token in last.committed && token.job == Some(jobId) && token in last.emails
    ensures forall ending :: ending in last.ended && ending.job.Some? && (ending.outcome.Created? || ending.outcome.AlreadyCompleted?) ==>
              ending.job.value in last.completions
  {
    hide Run, Justified;
    assert Inv(first) by {
      assert first.committed == [];
    }
    InvRun(first, steps, last);
    forall jobId | jobId in last.completions
      ensures exists token :: token in last.committed && token.job == Some(jobId) && token in last.emails
    {
      assert HasToken(last.committed, jobId);
      var token :| token in last.committed && token.job == Some(jobId);
      assert token in last.emails;
    }
    forall ending | ending in last.ended
      ensures EndingTrue(ending, last.completions)
    {
    }
  }
}

/**
 Runs of logins, rotations and logouts whose steps interleave, with expiring revocation keys and users that
 change in between. Each user change is one transaction. A revocation key may be set any time after its time to
 live was computed; what a late claim can do, and when, is part of the results.
 */
module TokenRuns {
  import opened Clock
  import opened Wrappers
  import opened UserListing
  import opened UserDirectory
  import opened RefreshTokens
  import PasswordReset

  datatype Change = Edit(change: Update) | Deactivate | Activate | ResetPassword

  function Changed(u: User, change: Change): User {
    match change
    case Edit(update) => Updated(u, update)
    case Deactivate => Deactivated(u)
    case Activate => Activated(u)
    case ResetPassword => VersionBumped(u)
  }

  /** A request between two of its steps; a loaded user is the row as it was read. */
  datatype Request =
    | LoggingIn(user: User)
    | Decoded(token: Claims)
    | Checked(token: Claims, user: User)
    | Claimed(token: Claims, user: User)
    | LoggingOut(token: Claims)

  datatype Event = Rotated(jti: nat) | LoggedOut(jti: nat)

  /** `tokens` are the refresh tokens issued, `login` the login each descends from, `log` what happened to them. */
  datatype State = State(
    now: Time,
    keys: Keys,
    users: map<int, User>,
    usedIds: set<int>,
    tenants: set<int>,
    tokens: map<nat, Claims>,
    login: map<nat, nat>,
    accessTokens: set<Claims>,
    nextJti: nat,
    requests: map<nat, Request>,
    log: seq<Event>)

  datatype Step =
    | Tick(to: Time)
    | CreateUser(user: User)
    | ChangeUser(userId: int, change: Change)
    | DeleteUser(userId: int)
    | SetTenants(active: set<int>)
    | LoginRead(r: nat, userId: int)
    | LoginIssue(r: nat, accessLifetime: int, refreshLifetime: int)
    | Decode(r: nat, jti: nat)
    | Load(r: nat)
    | Claim(r: nat, readAt: Time)
    | Issue(r: nat, accessLifetime: int, refreshLifetime: int)
    | LogoutDecode(r: nat, jti: nat)
    | LogoutRevoke(r: nat, readAt: Time)

  ghost predicate Enabled(st: State, step: Step) {
    match step
    case Tick(to) => st.now <= to
    case CreateUser(user) => user.id !in st.usedIds
    case ChangeUser(userId, _) => userId in st.users
    case DeleteUser(userId) => userId in st.users
    case SetTenants(_) => true
    case LoginRead(r, userId) => r !in st.requests && userId in st.users && st.users[userId].isActive
    case LoginIssue(r, _, _) => r in st.requests && st.requests[r].LoggingIn?
    case Decode(r, jti) => r !in st.requests && jti in st.tokens && DecodeRefresh(st.keys, st.tokens[jti], st.now).Success?
    case Load(r) => r in st.requests && st.requests[r].Decoded?
    case Claim(r, readAt) => r in st.requests && st.requests[r].Checked? && readAt <= st.now
    case Issue(r, _, _) => r in st.requests && st.requests[r].Claimed?
    case LogoutDecode(r, jti) => r !in st.requests && jti in st.tokens && DecodeRefresh(st.keys, st.tokens[jti], st.now).Success?
    case LogoutRevoke(r, readAt) => r in st.requests && st.requests[r].LoggingOut? && readAt <= st.now
  }

  ghost function Do(st: State, step: Step): State
    requires Enabled(st, step)
  {
    match step
    case Tick(to) => st.(now := to)
    case CreateUser(user) => st.(users := st.users[user.id := user], usedIds := st.usedIds + {user.id})
    case ChangeUser(userId, change) => st.(users := st.users[userId := Changed(st.users[userId], change)])
    case DeleteUser(userId) => st.(users := st.users - {userId})
    case SetTenants(active) => st.(tenants := active)
    case LoginRead(r, userId) => st.(requests := st.requests[r := LoggingIn(st.users[userId])])
    case LoginIssue(r, accessLifetime, refreshLifetime) =>
      Minted(st, r, st.requests[r].user, st.nextJti + 1, accessLifetime, refreshLifetime)
    case Decode(r, jti) => st.(requests := st.requests[r := Decoded(st.tokens[jti])])
    case Load(r) =>
      var token := st.requests[r].token;
      var user := ActiveUser(st.users, st.tenants, token);
      if user.Success? then st.(requests := st.requests[r := Checked(token, user.value)])
      else st.(requests := st.requests - {r})
    case Claim(r, readAt) => ClaimedBy(st, r, readAt)
    case Issue(r, accessLifetime, refreshLifetime) =>
      var request := st.requests[r];
      Minted(st, r, request.user, LoginOf(st, request.token.jti), accessLifetime, refreshLifetime)
    case LogoutDecode(r, jti) => st.(requests := st.requests[r := LoggingOut(st.tokens[jti])])
    case LogoutRevoke(r, readAt) =>
      var token := st.requests[r].token;
      st.(keys := Revoke(st.keys, token.jti, token.exp, false, readAt, st.now).0,
          requests := st.requests - {r},
          log := st.log + [LoggedOut(token.jti)])
  }

  ghost function LoginOf(st: State, jti: nat): nat {
    if jti in st.login then st.login[jti] else jti
  }

  ghost function ClaimedBy(st: State, r: nat, readAt: Time): State
    requires r in st.requests && st.requests[r].Checked?
  {
    var token, user := st.requests[r].token, st.requests[r].user;
    var (keys, done) := Revoke(st.keys, token.jti, token.exp, true, readAt, st.now);
    if done then
      st.(keys := keys, requests := st.requests[r := Claimed(token, user)], log := st.log + [Rotated(token.jti)])
    else
      st.(keys := keys, requests := st.requests - {r})
  }

  /** An access token and a refresh token carrying the version of the user as it was read. */
  ghost function Minted(st: State, r: nat, user: User, login: nat, accessLifetime: int, refreshLifetime: int): State {
    var access := Claims(Access, user.id, user.tenantId, user.tokenVersion, Seconds(st.now) + accessLifetime, st.nextJti);
    var refresh := Claims(Refresh, user.id, user.tenantId, user.tokenVersion, Seconds(st.now) + refreshLifetime, st.nextJti + 1);
    st.(tokens := st.tokens[refresh.jti := refresh],
        login := st.login[refresh.jti := login],
        accessTokens := st.accessTokens + {access},
        nextJti := st.nextJti + 2,
        requests := st.requests - {r})
  }

  ghost predicate Run(first: State, steps: seq<Step>, last: State)
    decreases |steps|
  {
    if steps == [] then first == last
    else Enabled(first, steps[0]) && Run(Do(first, steps[0]), steps[1..], last)
  }

  ghost predicate Init(st: State) {
    && st.keys == map[] && st.users == map[] && st.usedIds == {} && st.tokens == map[] && st.login == map[]
    && st.accessTokens == {} && st.requests == map[] && st.log == []
  }

  // ---- invariant ----

  ghost predicate Spent(st: State, jti: nat) {
    Rotated(jti) in st.log || LoggedOut(jti) in st.log
  }

  /** A token that was rotated or logged out stays refused: its key outlives it, or it has expired. */
  ghost predicate SpentRefused(st: State) {
    forall jti :: jti in st.tokens && Spent(st, jti) ==>
      st.tokens[jti].exp <= Seconds(st.now) || (jti in st.keys && st.keys[jti] >= st.tokens[jti].exp * SECOND)
  }

  ghost predicate Bookkeeping(st: State) {
    && st.tokens.Keys == st.login.Keys
    && (forall jti :: jti in st.tokens ==>
          jti < st.nextJti && st.tokens[jti].jti == jti && st.login[jti] < st.nextJti && st.tokens[jti].kind == Refresh)
    && (forall r :: r in st.requests && !st.requests[r].LoggingIn? ==>
          st.requests[r].token.jti in st.tokens && st.requests[r].token == st.tokens[st.requests[r].token.jti])
    && (forall jti :: Spent(st, jti) ==> jti in st.tokens)
  }

  /** Among the tokens of one login at most one is not rotated yet, and none is while a rotation is about to issue. */
  ghost predicate OneHead(st: State) {
    && (forall i, j :: i in st.tokens && j in st.tokens && i != j && LoginOf(st, i) == LoginOf(st, j) ==>
          Rotated(i) in st.log || Rotated(j) in st.log)
    && (forall r, j ::
          (r in st.requests && st.requests[r].Claimed? && j in st.tokens
           && LoginOf(st, st.requests[r].token.jti) == LoginOf(st, j)) ==> Rotated(j) in st.log)
    && (forall r, t :: r in st.requests && t in st.requests && r != t && st.requests[r].Claimed? && st.requests[t].Claimed? ==>
          LoginOf(st, st.requests[r].token.jti) != LoginOf(st, st.requests[t].token.jti))
  }

  ghost predicate OnceInLog(log: seq<Event>) {
    forall i, j :: 0 <= i < j < |log| && log[j].Rotated? ==> log[i].jti != log[j].jti
  }

  /** Rows are filed under their own id, and every id in use has been used. */
  ghost predicate RowsFiled(st: State) {
    && st.users.Keys <= st.usedIds
    && (forall id :: id in st.users ==> st.users[id].id == id)
  }

  ghost predicate Inv(st: State) {
    Bookkeeping(st) && SpentRefused(st) && OneHead(st) && OnceInLog(st.log) && RowsFiled(st)
  }

  // ---- the claim ----

  /** The claim's time to live was computed before the token's expiry second, its SET runs in or after it. */
  ghost predicate Straddles(st: State, step: Step) {
    && step.Claim? && step.r in st.requests && st.requests[step.r].Checked?
    && Seconds(step.readAt) < st.requests[step.r].token.exp <= Seconds(st.now)
  }

  /** A claim of a spent token, computed before expiry and set when the earlier key is gone. */
  ghost predicate Late(st: State, step: Step) {
    && step.Claim? && step.r in st.requests && st.requests[step.r].Checked?
    && var token := st.requests[step.r].token;
       Spent(st, token.jti) && Seconds(step.readAt) < token.exp && !Live(st.keys, token.jti, st.now)
  }

  ghost predicate Books(st: State) {
    Bookkeeping(st) && SpentRefused(st) && RowsFiled(st)
  }

  /** A claim of a spent token succeeds exactly when it is late, and a late claim straddles the expiry second. */
  lemma SpentClaimIff(st: State, r: nat, readAt: Time)
    requires Books(st) && Enabled(st, Claim(r, readAt)) && Spent(st, st.requests[r].token.jti)
    ensures var token := st.requests[r].token;
            Revoke(st.keys, token.jti, token.exp, true, readAt, st.now).1 <==> Late(st, Claim(r, readAt))
    ensures Late(st, Claim(r, readAt)) ==> Straddles(st, Claim(r, readAt))
  {
    var token := st.requests[r].token;
    assert token.jti in st.tokens && st.tokens[token.jti] == token;
    if Seconds(st.now) < token.exp {
      BeforeExpiry(st.now, token.exp);
    }
  }

  lemma BeforeExpiry(now: Time, exp: int)
    requires Seconds(now) < exp
    ensures now < exp * SECOND
  {
  }

  lemma ClaimKeepsInv(st: State, r: nat, readAt: Time)
    requires Inv(st) && Enabled(st, Claim(r, readAt)) && !Late(st, Claim(r, readAt))
    ensures Inv(Do(st, Claim(r, readAt)))
  {
    hide Bookkeeping, SpentRefused, OneHead, OnceInLog, RowsFiled, Spent;
    var token := st.requests[r].token;
    var st' := Do(st, Claim(r, readAt));
    if Spent(st, token.jti) {
      SpentClaimIff(st, r, readAt);
    }
    if Revoke(st.keys, token.jti, token.exp, true, readAt, st.now).1 {
      KeyOutlivesToken(st.keys, token.jti, token.exp, true, readAt, st.now);
      ClaimInBooks(st, st', r, token);
      ClaimInLog(st, st', token.jti);
      ClaimKeepsHead(st, st', r, token);
    } else {
      RequestDropped(st, r);
    }
  }

  lemma ClaimInBooks(st: State, st': State, r: nat, token: Claims)
    requires Books(st) && r in st.requests && st.requests[r].Checked? && st.requests[r].token == token
    requires st' == st.(keys := st'.keys, requests := st.requests[r := Claimed(token, st.requests[r].user)],
                        log := st.log + [Rotated(token.jti)])
    requires st'.keys == st.keys[token.jti := if token.jti in st'.keys then st'.keys[token.jti] else 0]
    requires token.jti in st'.keys && st'.keys[token.jti] >= token.exp * SECOND
    ensures Books(st')
  {
    SpentGrows(st, st', Rotated(token.jti));
    assert Bookkeeping(st');
  }

  lemma SpentGrows(st: State, st': State, event: Event)
    requires st'.log == st.log + [event]
    ensures forall jti :: Spent(st', jti) <==> Spent(st, jti) || jti == event.jti
    ensures forall jti :: Rotated(jti) in st'.log <==> Rotated(jti) in st.log || event == Rotated(jti)
  {
  }

  lemma ClaimInLog(st: State, st': State, jti: nat)
    requires OnceInLog(st.log) && !Spent(st, jti) && st'.log == st.log + [Rotated(jti)]
    ensures OnceInLog(st'.log)
  {
    forall i | 0 <= i < |st.log|
      ensures st.log[i].jti != jti
    {
      assert st.log[i] in st.log;
    }
  }

  lemma ClaimKeepsHead(st: State, st': State, r: nat, token: Claims)
    requires Inv(st) && r in st.requests && st.requests[r].Checked? && st.requests[r].token == token && !Spent(st, token.jti)
    requires st'.requests == st.requests[r := Claimed(token, st.requests[r].user)]
    requires st'.log == st.log + [Rotated(token.jti)] && st'.tokens == st.tokens && st'.login == st.login
    ensures OneHead(st')
  {
    hide SpentRefused, OnceInLog, RowsFiled;
    SpentGrows(st, st', Rotated(token.jti));
    assert token.jti in st.tokens;
  }

  lemma RequestDropped(st: State, r: nat)
    requires Inv(st) && r in st.requests
    ensures Inv(st.(requests := st.requests - {r}))
  {
    hide SpentRefused, OnceInLog, RowsFiled;
    var st' := st.(requests := st.requests - {r});
    assert SpentRefused(st') == SpentRefused(st) by {
      SpentRefusedFrame(st, st');
    }
    assert RowsFiled(st') by {
      RowsFrame(st, st');
    }
  }

  lemma SpentRefusedFrame(st: State, st': State)
    requires st'.tokens == st.tokens && st'.log == st.log && st'.now == st.now && st'.keys == st.keys
    ensures SpentRefused(st') == SpentRefused(st)
  {
  }

  lemma RowsFrame(st: State, st': State)
    requires RowsFiled(st) && st'.users == st.users && st'.usedIds == st.usedIds
    ensures RowsFiled(st')
  {
  }

  // ---- the other steps ----

  /** A request that is not about to issue may take the place of another. */
  lemma RequestSet(st: State, r: nat, request: Request)
    requires Inv(st) && !request.Claimed? && (r in st.requests ==> !st.requests[r].Claimed?)
    requires !request.LoggingIn? ==> request.token.jti in st.tokens && request.token == st.tokens[request.token.jti]
    ensures Inv(st.(requests := st.requests[r := request]))
  {
    hide SpentRefused, OnceInLog, RowsFiled, LoginOf, Spent;
    var st' := st.(requests := st.requests[r := request]);
    SpentRefusedFrame(st, st');
    RowsFrame(st, st');
    SameSpent(st, st');
    SameLogins(st, st');
  }

  lemma SameSpent(st: State, st': State)
    requires st'.log == st.log
    ensures forall jti :: Spent(st', jti) <==> Spent(st, jti)
  {
  }

  lemma SameLogins(st: State, st': State)
    requires st'.login == st.login
    ensures forall jti :: LoginOf(st', jti) == LoginOf(st, jti)
  {
  }

  lemma LogoutKeepsInv(st: State, r: nat, readAt: Time)
    requires Inv(st) && Enabled(st, LogoutRevoke(r, readAt))
    ensures Inv(Do(st, LogoutRevoke(r, readAt)))
  {
    hide Bookkeeping, SpentRefused, OneHead, OnceInLog, RowsFiled, Revoke;
    var token := st.requests[r].token;
    RequestIsIssued(st, r);
    RequestDropped(st, r);
    LoggedOutRecorded(st.(requests := st.requests - {r}), token, readAt);
  }

  lemma RequestIsIssued(st: State, r: nat)
    requires Bookkeeping(st) && r in st.requests && !st.requests[r].LoggingIn?
    ensures st.requests[r].token.jti in st.tokens && st.tokens[st.requests[r].token.jti] == st.requests[r].token
  {
  }

  lemma LoggedOutRecorded(st: State, token: Claims, readAt: Time)
    requires Inv(st) && readAt <= st.now && token.jti in st.tokens && st.tokens[token.jti] == token
    ensures Inv(st.(keys := Revoke(st.keys, token.jti, token.exp, false, readAt, st.now).0,
                    log := st.log + [LoggedOut(token.jti)]))
  {
    var st' := st.(keys := Revoke(st.keys, token.jti, token.exp, false, readAt, st.now).0,
                   log := st.log + [LoggedOut(token.jti)]);
    SpentGrows(st, st', LoggedOut(token.jti));
    KeyAfterLogout(st.keys, token, readAt, st.now);
    hide Revoke;
    assert RowsFiled(st') by {
      RowsFrame(st, st');
    }
    assert OneHead(st') by {
      LogoutKeepsHead(st, st', token.jti);
    }
    hide OneHead, RowsFiled, Spent;
    assert Bookkeeping(st');
    assert OnceInLog(st'.log);
    assert SpentRefused(st');
  }

  lemma KeyAfterLogout(keys: Keys, token: Claims, readAt: Time, now: Time)
    requires readAt <= now
    ensures var keys' := Revoke(keys, token.jti, token.exp, false, readAt, now).0;
            && (token.exp <= Seconds(now) || (token.jti in keys' && keys'[token.jti] >= token.exp * SECOND))
            && (forall jti :: jti != token.jti && jti in keys ==> jti in keys' && keys'[jti] == keys[jti])
  {
  }

  lemma LogoutKeepsHead(st: State, st': State, jti: nat)
    requires OneHead(st) && st'.tokens == st.tokens && st'.login == st.login && st'.requests == st.requests
    requires st'.log == st.log + [LoggedOut(jti)]
    ensures OneHead(st')
  {
    forall i
      ensures Rotated(i) in st.log ==> Rotated(i) in st'.log
    {
    }
  }

  /** The new token of a login, or of a rotation whose old token is spent, is the only usable one of its login. */
  lemma MintKeepsInv(st: State, step: Step)
    requires Inv(st) && Enabled(st, step) && (step.LoginIssue? || step.Issue?)
    ensures Inv(Do(st, step))
  {
    MintKeepsBooks(st, step);
    MintKeepsHead(st, step);
  }

  lemma MintedInBooks(st: State, r: nat, user: User, login: nat, accessLifetime: int, refreshLifetime: int)
    requires Bookkeeping(st) && SpentRefused(st) && RowsFiled(st) && r in st.requests && login < st.nextJti + 2
    ensures var st' := Minted(st, r, user, login, accessLifetime, refreshLifetime);
            Bookkeeping(st') && SpentRefused(st') && RowsFiled(st')
  {
    var st' := Minted(st, r, user, login, accessLifetime, refreshLifetime);
    var newest := st.nextJti + 1;
    SameSpent(st, st');
    assert !Spent(st, newest);
    hide Spent;
    assert SpentRefused(st') by {
      hide RowsFiled;
    }
    assert Bookkeeping(st') by {
      hide SpentRefused, RowsFiled;
    }
  }

  lemma MintKeepsBooks(st: State, step: Step)
    requires Inv(st) && Enabled(st, step) && (step.LoginIssue? || step.Issue?)
    ensures Bookkeeping(Do(st, step)) && SpentRefused(Do(st, step)) && RowsFiled(Do(st, step))
  {
    hide OneHead, OnceInLog, SpentRefused, RowsFiled, Minted;
    if step.Issue? {
      RequestIsIssued(st, step.r);
      var request := st.requests[step.r];
      assert LoginOf(st, request.token.jti) < st.nextJti;
      MintedInBooks(st, step.r, request.user, LoginOf(st, request.token.jti), step.accessLifetime, step.refreshLifetime);
    } else {
      MintedInBooks(st, step.r, st.requests[step.r].user, st.nextJti + 1, step.accessLifetime, step.refreshLifetime);
    }
  }

  lemma MintKeepsHead(st: State, step: Step)
    requires Inv(st) && Enabled(st, step) && (step.LoginIssue? || step.Issue?)
    ensures OneHead(Do(st, step))
  {
    hide SpentRefused, OnceInLog, RowsFiled;
    var st' := Do(st, step);
    var newest := st.nextJti + 1;
    var login := st'.login[newest];
    forall j | j in st.tokens
      ensures LoginOf(st', j) == LoginOf(st, j) && LoginOf(st, j) < st.nextJti
    {
    }
    if step.Issue? {
      RequestIsIssued(st, step.r);
      assert forall j :: j in st.tokens && LoginOf(st, j) == login ==> Rotated(j) in st.log;
    }
    forall t | t in st'.requests && st'.requests[t].Claimed?
      ensures LoginOf(st', st'.requests[t].token.jti) != login
      ensures st'.requests[t].token.jti in st.tokens
    {
      RequestIsIssued(st, t);
    }
    hide Bookkeeping;
    NewestIsHead(st, st', newest, login);
  }

  /** A new token whose login has no unrotated token and no rotation about to issue becomes the head of that login. */
  lemma NewestIsHead(st: State, st': State, newest: nat, login: nat)
    requires OneHead(st) && newest !in st.tokens && st'.log == st.log
    requires st'.tokens.Keys == st.tokens.Keys + {newest} && LoginOf(st', newest) == login
    requires forall j :: j in st.tokens ==> LoginOf(st', j) == LoginOf(st, j)
    requires forall j :: j in st.tokens && LoginOf(st, j) == login ==> Rotated(j) in st.log
    requires forall r :: r in st'.requests ==> r in st.requests && st'.requests[r] == st.requests[r]
    requires forall r :: r in st'.requests && st'.requests[r].Claimed? ==>
                           st'.requests[r].token.jti in st.tokens && LoginOf(st', st'.requests[r].token.jti) != login
    ensures OneHead(st')
  {
    hide LoginOf;
  }

  lemma TickKeepsInv(st: State, to: Time)
    requires Inv(st) && st.now <= to
    ensures Inv(st.(now := to))
  {
    hide OneHead, OnceInLog;
    var st' := st.(now := to);
    assert forall jti :: Spent(st', jti) <==> Spent(st, jti);
    assert OneHead(st') by {
      HeadFrame(st, st');
    }
  }

  lemma HeadFrame(st: State, st': State)
    requires OneHead(st) && st'.tokens == st.tokens && st'.login == st.login && st'.requests == st.requests && st'.log == st.log
    ensures OneHead(st')
  {
  }

  lemma UsersChange(st: State, users: map<int, User>, usedIds: set<int>, tenants: set<int>)
    requires Inv(st) && users.Keys <= usedIds && forall id :: id in users ==> users[id].id == id
    ensures Inv(st.(users := users, usedIds := usedIds, tenants := tenants))
  {
    hide OneHead, OnceInLog;
    var st' := st.(users := users, usedIds := usedIds, tenants := tenants);
    HeadFrame(st, st');
    SpentRefusedFrame(st, st');
  }

  lemma InvStep(st: State, step: Step)
    requires Inv(st) && Enabled(st, step) && !Late(st, step)
    ensures Inv(Do(st, step))
  {
    hide OneHead, OnceInLog, SpentRefused, Revoke;
    match step {
      case Tick(to) => TickKeepsInv(st, to);
      case CreateUser(user) => UsersChange(st, st.users[user.id := user], st.usedIds + {user.id}, st.tenants);
      case ChangeUser(userId, change) =>
        UsersChange(st, st.users[userId := Changed(st.users[userId], change)], st.usedIds, st.tenants);
      case DeleteUser(userId) => UsersChange(st, st.users - {userId}, st.usedIds, st.tenants);
      case SetTenants(active) => UsersChange(st, st.users, st.usedIds, active);
      case LoginRead(r, userId) => RequestSet(st, r, LoggingIn(st.users[userId]));
      case LoginIssue(_, _, _) => MintKeepsInv(st, step);
      case Decode(r, jti) => RequestSet(st, r, Decoded(st.tokens[jti]));
      case Load(r) =>
        var token := st.requests[r].token;
        var user := ActiveUser(st.users, st.tenants, token);
        if user.Success? {
          RequestSet(st, r, Checked(token, user.value));
        } else {
          RequestDropped(st, r);
        }
      case Claim(r, readAt) => ClaimKeepsInv(st, r, readAt);
      case Issue(_, _, _) => MintKeepsInv(st, step);
      case LogoutDecode(r, jti) => RequestSet(st, r, LoggingOut(st.tokens[jti]));
      case LogoutRevoke(r, readAt) => LogoutKeepsInv(st, r, readAt);
    }
  }

  /** No claim of the run is late. */
  ghost predicate NeverLate(first: State, steps: seq<Step>)
    decreases |steps|
  {
    steps == [] || (Enabled(first, steps[0]) ==> !Late(first, steps[0]) && NeverLate(Do(first, steps[0]), steps[1..]))
  }

  lemma {:induction false} InvRun(first: State, steps: seq<Step>, last: State)
    requires Inv(first) && Run(first, steps, last) && NeverLate(first, steps)
    ensures Inv(last)
    decreases |steps|
  {
    hide Inv, Enabled, Do, Late;
    if steps != [] {
      InvStep(first, steps[0]);
      InvRun(Do(first, steps[0]), steps[1..], last);
    }
  }

  // ---- theorems ----

  /** No claim of the run straddles the expiry second of its token. */
  ghost predicate Punctual(first: State, steps: seq<Step>)
    decreases |steps|
  {
    steps == [] || (Enabled(first, steps[0]) ==> !Straddles(first, steps[0]) && Punctual(Do(first, steps[0]), steps[1..]))
  }

  lemma {:induction false} PunctualNeverLate(first: State, steps: seq<Step>, last: State)
    requires Inv(first) && Run(first, steps, last) && Punctual(first, steps)
    ensures NeverLate(first, steps)
    decreases |steps|
  {
    hide Inv, Enabled, Do, Late, Straddles;
    if steps != [] {
      LateStraddles(first, steps[0]);
      InvStep(first, steps[0]);
      PunctualNeverLate(Do(first, steps[0]), steps[1..], last);
    }
  }

  lemma LateStraddles(st: State, step: Step)
    requires Inv(st) && Enabled(st, step)
    ensures Late(st, step) ==> Straddles(st, step)
  {
    hide OneHead, OnceInLog;
    if Late(st, step) {
      SpentClaimIff(st, step.r, step.readAt);
    }
  }

  lemma LateClaimIsLogged(st: State, step: Step)
    requires Inv(st) && Enabled(st, step) && Late(st, step)
    ensures !OnceInLog(Do(st, step).log)
  {
    hide Bookkeeping, SpentRefused, OneHead, RowsFiled;
    var jti := st.requests[step.r].token.jti;
    var log := Do(st, step).log;
    assert log == st.log + [Rotated(jti)];
    var event := if Rotated(jti) in st.log then Rotated(jti) else LoggedOut(jti);
    var i :| 0 <= i < |st.log| && st.log[i] == event;
    assert log[i] == event && log[|st.log|] == Rotated(jti);
  }

  lemma {:induction false} LogGrows(first: State, steps: seq<Step>, last: State)
    requires Run(first, steps, last)
    ensures first.log <= last.log
    decreases |steps|
  {
    hide Enabled, Do;
    if steps != [] {
      LogGrowsStep(first, steps[0]);
      LogGrows(Do(first, steps[0]), steps[1..], last);
    }
  }

  lemma LogGrowsStep(st: State, step: Step)
    requires Enabled(st, step)
    ensures st.log <= Do(st, step).log
  {
    hide Revoke, ActiveUser, DecodeRefresh;
  }

  lemma OnceInPrefix(log: seq<Event>, more: seq<Event>)
    requires log <= more && OnceInLog(more)
    ensures OnceInLog(log)
  {
    assert forall i :: 0 <= i < |log| ==> log[i] == more[i];
  }

  lemma {:induction false} OnceIffNeverLate(first: State, steps: seq<Step>, last: State)
    requires Inv(first) && Run(first, steps, last)
    ensures OnceInLog(last.log) <==> NeverLate(first, steps)
    decreases |steps|
  {
    hide Enabled, Do, Late, Bookkeeping, SpentRefused, OneHead, OnceInLog, RowsFiled;
    if steps != [] {
      var next := Do(first, steps[0]);
      if Late(first, steps[0]) {
        LateClaimIsLogged(first, steps[0]);
        LogGrows(next, steps[1..], last);
        if OnceInLog(last.log) {
          OnceInPrefix(next.log, last.log);
        }
      } else {
        InvStep(first, steps[0]);
        OnceIffNeverLate(next, steps[1..], last);
      }
    }
  }

  /**
   Over a whole run each refresh token is rotated at most once, and never after it was logged out, if and only if no
   claim of a spent token is computed before expiry and set after the earlier key is gone.
   */
  lemma RotatedOnceIff(first: State, steps: seq<Step>, last: State)
    requires Init(first) && Run(first, steps, last)
    ensures (forall i, j :: 0 <= i < j < |last.log| && last.log[j].Rotated? ==>
               last.log[i] != Rotated(last.log[j].jti) && last.log[i] != LoggedOut(last.log[j].jti))
            <==> NeverLate(first, steps)
  {
    hide Run, NeverLate;
    assert Inv(first);
    OnceIffNeverLate(first, steps, last);
    OnceByEvents(last.log);
  }

  lemma OnceByEvents(log: seq<Event>)
    ensures OnceInLog(log) <==>
              forall i, j :: 0 <= i < j < |log| && log[j].Rotated? ==> log[i] != Rotated(log[j].jti) && log[i] != LoggedOut(log[j].jti)
  {
    if forall i, j :: 0 <= i < j < |log| && log[j].Rotated? ==> log[i] != Rotated(log[j].jti) && log[i] != LoggedOut(log[j].jti) {
      forall i, j | 0 <= i < j < |log| && log[j].Rotated?
        ensures log[i].jti != log[j].jti
      {
        assert log[i] == Rotated(log[i].jti) || log[i] == LoggedOut(log[i].jti);
      }
    }
  }

  /** In particular whenever no claim straddles the expiry second of its token. */
  lemma RotatedAtMostOnce(first: State, steps: seq<Step>, last: State)
    requires Init(first) && Run(first, steps, last) && Punctual(first, steps)
    ensures forall i, j :: 0 <= i < j < |last.log| && last.log[j].Rotated? ==>
              last.log[i] != Rotated(last.log[j].jti) && last.log[i] != LoggedOut(last.log[j].jti)
  {
    hide Run, Punctual;
    assert Inv(first);
    PunctualNeverLate(first, steps, last);
    RotatedOnceIff(first, steps, last);
  }

  /** A token a claim could still succeed for. */
  ghost predicate Usable(st: State, jti: nat) {
    jti in st.tokens && Seconds(st.now) < st.tokens[jti].exp && !Live(st.keys, jti, st.now)
  }

  /**
   As long as each token rotates at most once, each login has at most one usable refresh token at any time, and none
   while a rotation of it is about to issue the next.
   */
  lemma OneUsableTokenPerLogin(first: State, steps: seq<Step>, last: State, i: nat, j: nat)
    requires Init(first) && Run(first, steps, last) && NeverLate(first, steps)
    requires Usable(last, i) && Usable(last, j) && LoginOf(last, i) == LoginOf(last, j)
    ensures i == j
    ensures forall r :: r in last.requests && last.requests[r].Claimed? ==> LoginOf(last, last.requests[r].token.jti) != LoginOf(last, i)
  {
    hide Run, NeverLate;
    assert Inv(first);
    InvRun(first, steps, last);
    BeforeExpiry(last.now, last.tokens[i].exp);
    BeforeExpiry(last.now, last.tokens[j].exp);
    assert !Spent(last, i) && !Spent(last, j);
  }

  lemma {:induction false} Push(first: State, steps: seq<Step>, st: State, step: Step)
    requires Run(first, steps, st) && Enabled(st, step)
    ensures Run(first, steps + [step], Do(st, step))
    decreases |steps|
  {
    hide Enabled, Do;
    if steps == [] {
      assert [step][1..] == [];
    } else {
      Push(Do(first, steps[0]), steps[1..], st, step);
      assert (steps + [step])[1..] == steps[1..] + [step];
    }
  }

  /** A user, and a login whose refresh token has number 1 and expires in second 10. */
  lemma LogInRuns(first: State, user: User) returns (steps: seq<Step>, st: State)
    requires first == State(0, map[], map[], {}, {1}, map[], map[], {}, 0, map[], []) && user == User(1, 1, "", "", true, 0)
    ensures Run(first, steps, st) && forall i :: 0 <= i < |steps| ==> !steps[i].Claim?
    ensures st.now == 0 && st.keys == map[] && st.log == [] && st.requests == map[] && st.tenants == {1}
    ensures st.users == map[1 := user] && st.tokens == map[1 := Claims(Refresh, 1, 1, 0, 10, 1)]
  {
    hide Run, Revoke;
    var s1 := first.(users := map[1 := user], usedIds := {1});
    var s2 := s1.(requests := map[0 := LoggingIn(user)]);
    st := Minted(s2, 0, user, 1, 10, 10);
    assert s1 == Do(first, CreateUser(user));
    assert s2 == Do(s1, LoginRead(0, 1));
    assert st == Do(s2, LoginIssue(0, 10, 10));
    RunEmpty(first);
    hide Do;
    Push(first, [], first, CreateUser(user));
    Push(first, [] + [CreateUser(user)], s1, LoginRead(0, 1));
    Push(first, [] + [CreateUser(user)] + [LoginRead(0, 1)], s2, LoginIssue(0, 10, 10));
    steps := [] + [CreateUser(user)] + [LoginRead(0, 1)] + [LoginIssue(0, 10, 10)];
  }

  /** A request that presents a good token is checked in two steps. */
  lemma ChecksRun(first: State, steps: seq<Step>, st: State, r: nat, jti: nat)
    requires Run(first, steps, st) && r !in st.requests && jti in st.tokens
    requires DecodeRefresh(st.keys, st.tokens[jti], st.now).Success? && ActiveUser(st.users, st.tenants, st.tokens[jti]).Success?
    ensures Run(first, steps + [Decode(r, jti)] + [Load(r)],
                st.(requests := st.requests[r := Checked(st.tokens[jti], ActiveUser(st.users, st.tenants, st.tokens[jti]).value)]))
  {
    hide Run, ActiveUser, DecodeRefresh;
    var decoded := st.(requests := st.requests[r := Decoded(st.tokens[jti])]);
    var checked := st.(requests := st.requests[r := Checked(st.tokens[jti], ActiveUser(st.users, st.tenants, st.tokens[jti]).value)]);
    assert decoded == Do(st, Decode(r, jti));
    assert checked == Do(decoded, Load(r));
    hide Do;
    Push(first, steps, st, Decode(r, jti));
    Push(first, steps + [Decode(r, jti)], decoded, Load(r));
  }

  /** One login and two requests that have both checked its token. */
  lemma TwoRequestsReady() returns (first: State, steps: seq<Step>, st: State)
    ensures Init(first) && Run(first, steps, st) && forall i :: 0 <= i < |steps| ==> !steps[i].Claim?
    ensures st.now == 0 && st.keys == map[] && st.log == []
    ensures forall r :: r in {1, 2} ==> r in st.requests && st.requests[r].Checked? && st.requests[r].token == Claims(Refresh, 1, 1, 0, 10, 1)
  {
    hide Run;
    first := State(0, map[], map[], {}, {1}, map[], map[], {}, 0, map[], []);
    steps, st := LogInRuns(first, User(1, 1, "", "", true, 0));
    ChecksRun(first, steps, st, 1, 1);
    var token, user := st.tokens[1], ActiveUser(st.users, st.tenants, st.tokens[1]).value;
    steps, st := steps + [Decode(1, 1)] + [Load(1)], st.(requests := map[1 := Checked(token, user)]);
    ChecksRun(first, steps, st, 2, 1);
    steps, st := steps + [Decode(2, 1)] + [Load(2)], st.(requests := st.requests[2 := Checked(token, user)]);
  }

  lemma RunEmpty(first: State)
    ensures Run(first, [], first)
  {
  }

  /** One claim that straddles the expiry second rotates a token a second time, even if its SET is only a microsecond late. */
  lemma StraddlingClaimRotatesTwice() returns (first: State, steps: seq<Step>, before: State, late: Step, last: State)
    ensures Init(first) && Run(first, steps, before) && Run(first, steps + [late], last)
    ensures Enabled(before, late) && Straddles(before, late) && last == Do(before, late)
    ensures before.log == [Rotated(1)] && last.log == [Rotated(1), Rotated(1)]
    ensures SetWithin(1, first, steps + [late])
  {
    hide Run, SetWithin;
    var st;
    first, steps, st := TwoRequestsReady();
    SetWithoutClaims(1, first, steps);
    var token := Claims(Refresh, 1, 1, 0, 10, 1);
    assert 1 in {1, 2} && 2 in {1, 2};
    var claimed := Do(st, Claim(1, 0));
    assert claimed.keys == map[1 := 10 * SECOND] && claimed.log == [Rotated(1)];
    assert 2 in claimed.requests && claimed.requests[2] == st.requests[2];
    before := claimed.(now := 10 * SECOND);
    late := Claim(2, 10 * SECOND - 1);
    last := Do(before, late);
    Push(first, steps, st, Claim(1, 0));
    SetPush(1, first, steps, st, Claim(1, 0));
    steps := steps + [Claim(1, 0)];
    Push(first, steps, claimed, Tick(10 * SECOND));
    SetPush(1, first, steps, claimed, Tick(10 * SECOND));
    steps := steps + [Tick(10 * SECOND)];
    Push(first, steps, before, late);
    SetPush(1, first, steps, before, late);
  }

  // ---- in terms of the delay between reading and SET ----

  /** Every claim of the run sets its key at most `lag` after its time to live was computed. */
  ghost predicate SetWithin(lag: nat, first: State, steps: seq<Step>)
    decreases |steps|
  {
    steps == [] || (Enabled(first, steps[0]) ==>
                      && (steps[0].Claim? ==> first.now - steps[0].readAt <= lag)
                      && SetWithin(lag, Do(first, steps[0]), steps[1..]))
  }

  lemma {:induction false} SetPush(lag: nat, first: State, steps: seq<Step>, st: State, step: Step)
    requires Run(first, steps, st) && SetWithin(lag, first, steps) && (step.Claim? ==> st.now - step.readAt <= lag)
    ensures SetWithin(lag, first, steps + [step])
    decreases |steps|
  {
    hide Enabled, Do;
    if steps == [] {
      assert [step][1..] == [];
    } else {
      SetPush(lag, Do(first, steps[0]), steps[1..], st, step);
      assert (steps + [step])[1..] == steps[1..] + [step];
    }
  }

  lemma {:induction false} SetWithoutClaims(lag: nat, first: State, steps: seq<Step>)
    requires forall i :: 0 <= i < |steps| ==> !steps[i].Claim?
    ensures SetWithin(lag, first, steps)
    decreases |steps|
  {
    hide Do, Enabled;
    if steps != [] && Enabled(first, steps[0]) {
      SetWithoutClaims(lag, Do(first, steps[0]), steps[1..]);
    }
  }

  lemma {:induction false} SetMore(lag: nat, more: nat, first: State, steps: seq<Step>)
    requires lag <= more && SetWithin(lag, first, steps)
    ensures SetWithin(more, first, steps)
    decreases |steps|
  {
    hide Enabled, Do;
    if steps != [] && Enabled(first, steps[0]) {
      SetMore(lag, more, Do(first, steps[0]), steps[1..]);
    }
  }

  lemma {:induction false} AtOnceIsPunctual(first: State, steps: seq<Step>)
    requires SetWithin(0, first, steps)
    ensures Punctual(first, steps)
    decreases |steps|
  {
    hide Do;
    if steps != [] && Enabled(first, steps[0]) {
      AtOnceIsPunctual(Do(first, steps[0]), steps[1..]);
    }
  }

  /**
   With a bound on the time between the computation of a claim's time to live and its SET, every run rotates each token
   at most once, and never after its logout, if and only if the bound is zero.
   */
  lemma RotatedOnceIffNoLag(lag: nat)
    ensures (forall first, steps, last :: Init(first) && Run(first, steps, last) && SetWithin(lag, first, steps) ==> OnceInLog(last.log))
            <==> lag == 0
  {
    hide Run, SetWithin, Punctual;
    if lag == 0 {
      forall first, steps, last | Init(first) && Run(first, steps, last) && SetWithin(lag, first, steps)
        ensures OnceInLog(last.log)
      {
        AtOnceIsPunctual(first, steps);
        RotatedAtMostOnce(first, steps, last);
        OnceByEvents(last.log);
      }
    } else {
      var first, steps, before, late, last := StraddlingClaimRotatesTwice();
      SetMore(1, lag, first, steps + [late]);
      assert last.log[0] == last.log[1] == Rotated(1);
    }
  }

  // ---- version invalidation ----

  /** A user's version as seen from an earlier state: never lower; a deleted user never comes back. */
  ghost predicate VersionsGrow(a: State, b: State) {
    && a.usedIds <= b.usedIds
    && forall id :: id in a.usedIds && id in b.users ==> id in a.users && a.users[id].tokenVersion <= b.users[id].tokenVersion
  }

  lemma {:induction false} VersionsGrowOverRuns(a: State, first: State, steps: seq<Step>, last: State)
    requires VersionsGrow(a, first) && Run(first, steps, last)
    ensures VersionsGrow(a, last)
    decreases |steps|
  {
    if steps != [] {
      VersionsGrowStep(a, first, steps[0]);
      VersionsGrowOverRuns(a, Do(first, steps[0]), steps[1..], last);
    }
  }

  lemma VersionsGrowStep(a: State, st: State, step: Step)
    requires VersionsGrow(a, st) && Enabled(st, step)
    ensures VersionsGrow(a, Do(st, step))
  {
  }

  /** Deactivation, a password reset and a change of role raise the version by one; nothing else changes it. */
  lemma WhatBumpsTheVersion(u: User, change: Change)
    ensures Changed(u, change).tokenVersion - u.tokenVersion
         == if change.Deactivate? || change.ResetPassword?
               || (change.Edit? && change.change.role.Some? && change.change.role.value != u.role)
            then 1 else 0
    ensures Changed(u, Deactivate) == WithActivity(u, false, u.tokenVersion + 1)
    ensures Changed(u, Activate) == WithActivity(u, true, u.tokenVersion)
    ensures Changed(u, ResetPassword) == WithActivity(u, u.isActive, u.tokenVersion + 1)
    ensures forall request :: change == Edit(UpdateOf(request)) ==> Changed(u, change) == Edited(u, request)
  {
  }

  /**
   Once a user has been deactivated, given another role or has reset the password, every access or refresh token that
   carries an older version is refused in every later state, tokens minted later by a request that had read the
   user before the change included.
   */
  lemma OlderVersionsRefusedForever(first: State, before: seq<Step>, st: State, userId: int, change: Change,
                                    after: seq<Step>, last: State, token: Claims)
    requires Init(first) && Run(first, before, st) && userId in st.users
    requires Changed(st.users[userId], change).tokenVersion > st.users[userId].tokenVersion
    requires Run(Do(st, ChangeUser(userId, change)), after, last)
    requires token.userId == userId && token.version <= st.users[userId].tokenVersion
    ensures ActiveUser(last.users, last.tenants, token).Failure?
    ensures !AccessAccepted(last.users, last.tenants, token, last.now)
    ensures forall r :: r in last.requests && last.requests[r].Decoded? && last.requests[r].token == token ==>
              r !in Do(last, Load(r)).requests
  {
    hide Run;
    RowsFiledRun(first, before, st);
    var changed := Do(st, ChangeUser(userId, change));
    VersionsGrowOverRuns(changed, changed, after, last);
  }

  lemma {:induction false} RowsFiledRun(first: State, steps: seq<Step>, last: State)
    requires RowsFiled(first) && Run(first, steps, last)
    ensures RowsFiled(last)
    decreases |steps|
  {
    if steps != [] {
      RowsFiledStep(first, steps[0]);
      hide Do, Enabled;
      RowsFiledRun(Do(first, steps[0]), steps[1..], last);
    }
  }

  lemma RowsFiledStep(st: State, step: Step)
    requires RowsFiled(st) && Enabled(st, step)
    ensures RowsFiled(Do(st, step))
  {
    hide Revoke;
  }

  /**
   In every state in which a user's row is gone or inactive, or its tenant is not active, no access token of that user is
   let in, and no rotation gets past the loading of the user, whatever the versions are.
   */
  lemma InactiveUserRefused(st: State, userId: int)
    requires userId !in st.users || !st.users[userId].isActive || st.users[userId].tenantId !in st.tenants
    ensures forall c :: c in st.accessTokens && c.userId == userId ==> !AccessAccepted(st.users, st.tenants, c, st.now)
    ensures forall r :: r in st.requests && st.requests[r].Decoded? && st.requests[r].token.userId == userId ==>
              r !in Do(st, Load(r)).requests
  {
    forall c: Claims | c.userId == userId
      ensures ActiveUser(st.users, st.tenants, c).Failure?
      ensures !AccessAccepted(st.users, st.tenants, c, st.now)
    {
      AccessAcceptedIff(st.users, st.tenants, c, st.now);
    }
  }

  /** Deletion, deactivation and the deactivation of the tenant each shut out a user's access tokens at once. */
  lemma ShutOutAtOnce(st: State, userId: int, step: Step)
    requires RowsFiled(st) && userId in st.users && Enabled(st, step)
    requires || step == DeleteUser(userId) || step == ChangeUser(userId, Deactivate)
             || (step.SetTenants? && st.users[userId].tenantId !in step.active)
    ensures forall c :: c in Do(st, step).accessTokens && c.userId == userId ==>
              !AccessAccepted(Do(st, step).users, Do(st, step).tenants, c, st.now)
  {
    hide AccessAccepted;
    InactiveUserRefused(Do(st, step), userId);
  }

  /** The accounts that a confirmation sees are these users. */
  ghost predicate SameUsers(users: map<int, User>, accounts: map<int, PasswordReset.Account>) {
    && users.Keys == accounts.Keys
    && forall id :: id in users ==> accounts[id].active == users[id].isActive && accounts[id].tokenVersion == users[id].tokenVersion
  }

  /** A confirmed reset of the password is the change `ResetPassword` of its user. */
  lemma ConfirmedIsReset(users: map<int, User>, accounts: map<int, PasswordReset.Account>, userId: int, password: string)
    requires SameUsers(users, accounts) && userId in users
    ensures var accounts' := PasswordReset.PasswordChanged(accounts, userId, password);
            && SameUsers(users[userId := Changed(users[userId], ResetPassword)], accounts')
            && accounts'[userId].password == password && accounts'[userId].tokenVersion == users[userId].tokenVersion + 1
  {
  }

  /** A request in flight across the change issues a token of the version it had read. */
  lemma InFlightMintIsStale(st: State, r: nat, accessLifetime: int, refreshLifetime: int)
    requires r in st.requests && (st.requests[r].Claimed? || st.requests[r].LoggingIn?)
    requires Enabled(st, Issue(r, accessLifetime, refreshLifetime)) || Enabled(st, LoginIssue(r, accessLifetime, refreshLifetime))
    requires st.requests[r].user.id in st.users && st.requests[r].user.tokenVersion < st.users[st.requests[r].user.id].tokenVersion
    ensures var step := if st.requests[r].Claimed? then Issue(r, accessLifetime, refreshLifetime) else LoginIssue(r, accessLifetime, refreshLifetime);
            var after := Do(st, step);
            && ActiveUser(after.users, after.tenants, after.tokens[st.nextJti + 1]).Failure?
            && forall a :: a in after.accessTokens && a !in st.accessTokens ==> !AccessAccepted(after.users, after.tenants, a, after.now)
  {
  }
}

/** A rotation or logout whose steps are not interleaved with others does what the service's methods do as a whole. */
module TokenAlone {
  import opened Clock
  import opened Wrappers
  import opened UserListing
  import opened RefreshTokens
  import opened TokenRuns

  lemma ClaimRuns(first: State, steps: seq<Step>, st: State, r: nat, token: Claims, user: User, readAt: Time, setAt: Time)
    requires Run(first, steps, st.(requests := st.requests[r := Checked(token, user)]))
    requires st.now <= readAt <= setAt && !Live(st.keys, token.jti, st.now) && r !in st.requests
    ensures var claimed := st.(now := setAt, keys := st.keys[token.jti := setAt + (token.exp - Seconds(readAt)) * SECOND],
                               requests := st.requests[r := Claimed(token, user)], log := st.log + [Rotated(token.jti)]);
            Run(first, steps + [Tick(setAt)] + [Claim(r, readAt)],
                if Seconds(readAt) < token.exp then claimed else st.(now := setAt))
  {
    hide Run;
    var checked := st.(requests := st.requests[r := Checked(token, user)]);
    var later := checked.(now := setAt);
    assert later == Do(checked, Tick(setAt));
    Push(first, steps, checked, Tick(setAt));
    Push(first, steps + [Tick(setAt)], later, Claim(r, readAt));
    assert later.requests - {r} == st.requests;
    var next := Do(later, Claim(r, readAt));
    if Seconds(readAt) < token.exp {
      assert next.requests == st.requests[r := Claimed(token, user)];
    } else {
      assert next == st.(now := setAt);
    }
  }

  lemma MintRuns(first: State, steps: seq<Step>, st: State, r: nat, token: Claims, user: User, mintedAt: Time,
                 accessLifetime: int, refreshLifetime: int)
    requires Run(first, steps, st) && r in st.requests && st.requests[r] == Claimed(token, user) && st.now <= mintedAt
    ensures Run(first, steps + [Tick(mintedAt)] + [Issue(r, accessLifetime, refreshLifetime)],
                Minted(st.(now := mintedAt), r, user, LoginOf(st, token.jti), accessLifetime, refreshLifetime))
  {
    hide Run, Minted;
    var later := st.(now := mintedAt);
    assert later == Do(st, Tick(mintedAt));
    assert LoginOf(later, token.jti) == LoginOf(st, token.jti);
    assert Do(later, Issue(r, accessLifetime, refreshLifetime))
        == Minted(later, r, user, LoginOf(st, token.jti), accessLifetime, refreshLifetime);
    hide Do;
    Push(first, steps, st, Tick(mintedAt));
    Push(first, steps + [Tick(mintedAt)], later, Issue(r, accessLifetime, refreshLifetime));
  }

  /** The user cannot be used: the request ends there. */
  lemma UserRefused(st: State, r: nat, jti: nat)
    requires r !in st.requests && jti in st.tokens && DecodeRefresh(st.keys, st.tokens[jti], st.now).Success?
    requires ActiveUser(st.users, st.tenants, st.tokens[jti]).Failure?
    ensures Run(st, [Decode(r, jti)] + [Load(r)], st)
  {
    hide Run, ActiveUser, DecodeRefresh;
    var decoded := st.(requests := st.requests[r := Decoded(st.tokens[jti])]);
    assert decoded == Do(st, Decode(r, jti));
    assert decoded.requests - {r} == st.requests;
    assert Do(decoded, Load(r)) == st;
    hide Do;
    RunEmpty(st);
    Push(st, [], st, Decode(r, jti));
    assert [] + [Decode(r, jti)] == [Decode(r, jti)];
    Push(st, [Decode(r, jti)], decoded, Load(r));
  }

  /** The clauses of `RotateRefreshToken`, for the steps of one request from decoding to minting. */
  lemma RotationAlone(st: State, r: nat, jti: nat, readAt: Time, setAt: Time, mintedAt: Time, accessLifetime: int, refreshLifetime: int)
    returns (steps: seq<Step>, last: State)
    requires r !in st.requests && jti in st.tokens && st.tokens[jti].jti == jti && RowsFiled(st)
    requires st.now <= readAt <= setAt <= mintedAt && DecodeRefresh(st.keys, st.tokens[jti], st.now).Success?
    ensures Run(st, steps, last) && last.requests == st.requests
    ensures var token := st.tokens[jti];
            if ActiveUser(st.users, st.tenants, token).Success? && Seconds(readAt) < token.exp then
              var refresh := Claims(Refresh, token.userId, token.tenantId, token.version,
                                    Seconds(mintedAt) + refreshLifetime, st.nextJti + 1);
              && last.keys == st.keys[jti := setAt + (token.exp - Seconds(readAt)) * SECOND]
              && last.accessTokens == st.accessTokens + {Claims(Access, token.userId, token.tenantId, token.version,
                                                                Seconds(mintedAt) + accessLifetime, st.nextJti)}
              && last.tokens == st.tokens[refresh.jti := refresh] && last.nextJti == st.nextJti + 2
              && last.log == st.log + [Rotated(jti)]
            else
              last.keys == st.keys && last.tokens == st.tokens && last.accessTokens == st.accessTokens
              && last.nextJti == st.nextJti && last.log == st.log
  {
    hide Run, Do, Enabled;
    var token := st.tokens[jti];
    var user := ActiveUser(st.users, st.tenants, token);
    if user.Failure? {
      UserRefused(st, r, jti);
      return [Decode(r, jti)] + [Load(r)], st;
    }
    RunEmpty(st);
    ChecksRun(st, [], st, r, jti);
    steps := [] + [Decode(r, jti)] + [Load(r)];
    ClaimRuns(st, steps, st, r, token, user.value, readAt, setAt);
    steps := steps + [Tick(setAt)] + [Claim(r, readAt)];
    if Seconds(readAt) >= token.exp {
      last := st.(now := setAt);
    } else {
      var claimed := st.(now := setAt, keys := st.keys[token.jti := setAt + (token.exp - Seconds(readAt)) * SECOND],
                         requests := st.requests[r := Claimed(token, user.value)], log := st.log + [Rotated(token.jti)]);
      MintRuns(st, steps, claimed, r, token, user.value, mintedAt, accessLifetime, refreshLifetime);
      steps := steps + [Tick(mintedAt)] + [Issue(r, accessLifetime, refreshLifetime)];
      last := Minted(claimed.(now := mintedAt), r, user.value, LoginOf(claimed, token.jti), accessLifetime, refreshLifetime);
      assert claimed.requests - {r} == st.requests;
    }
  }

  /** The clauses of `LogoutUser`, for the two steps of one request. */
  lemma LogoutAlone(st: State, r: nat, jti: nat, readAt: Time, setAt: Time) returns (steps: seq<Step>, last: State)
    requires r !in st.requests && jti in st.tokens && st.tokens[jti].jti == jti
    requires st.now <= readAt <= setAt && DecodeRefresh(st.keys, st.tokens[jti], st.now).Success?
    ensures Run(st, steps, last) && last.requests == st.requests && last.tokens == st.tokens
    ensures last.log == st.log + [LoggedOut(jti)]
    ensures var exp := st.tokens[jti].exp;
            last.keys == if exp <= Seconds(readAt) then st.keys else st.keys[jti := setAt + (exp - Seconds(readAt)) * SECOND]
  {
    hide Run, DecodeRefresh;
    var asked := st.(requests := st.requests[r := LoggingOut(st.tokens[jti])]);
    var later := asked.(now := setAt);
    last := Do(later, LogoutRevoke(r, readAt));
    assert asked == Do(st, LogoutDecode(r, jti));
    assert later == Do(asked, Tick(setAt));
    assert later.requests - {r} == st.requests;
    hide Do;
    RunEmpty(st);
    Push(st, [], st, LogoutDecode(r, jti));
    Push(st, [] + [LogoutDecode(r, jti)], asked, Tick(setAt));
    Push(st, [] + [LogoutDecode(r, jti)] + [Tick(setAt)], later, LogoutRevoke(r, readAt));
    steps := [] + [LogoutDecode(r, jti)] + [Tick(setAt)] + [LogoutRevoke(r, readAt)];
  }
}

/** Refresh-token rotation: the revocation keys in Redis, the checks, and the rotation and logout requests. */
module RefreshTokens {
  import opened Clock
  import opened Wrappers
  import opened UserListing

  datatype Kind = Access | Refresh

  /** What a signed token says. Tokens cannot be forged, so only issued claims are ever presented. */
  datatype Claims = Claims(kind: Kind, userId: int, tenantId: int, version: int, exp: int, jti: nat)

  datatype AuthError = InvalidToken | WrongType | Revoked | UserGone | TenantDenied

  /** The revocation keys: jti to the time its key expires. */
  type Keys = map<nat, Time>

  predicate Live(keys: Keys, jti: nat, now: Time) {
    jti in keys && now < keys[jti]
  }

  /** `revoke_refresh_token`: the time to live is computed at `readAt`, the SET runs at `now`. */
  function Revoke(keys: Keys, jti: nat, expiresAt: int, requireNew: bool, readAt: Time, now: Time): (Keys, bool) {
    var ttl := expiresAt - Seconds(readAt);
    if ttl <= 0 then (keys, !requireNew)
    else if requireNew && Live(keys, jti, now) then (keys, false)
    else (keys[jti := now + ttl * SECOND], true)
  }

  /** `decode_token`: the signature is good and the token has not passed its expiry second. */
  predicate Decodes(c: Claims, now: Time) {
    Seconds(now) <= c.exp
  }

  function DecodeRefresh(keys: Keys, c: Claims, now: Time): Result<Claims, AuthError> {
    if !Decodes(c, now) then Failure(InvalidToken)
    else if c.kind != Refresh then Failure(WrongType)
    else if Live(keys, c.jti, now) then Failure(Revoked)
    else Success(c)
  }

  /**
   A signed payload as presented. Members may be missing; a user or tenant id that is not a number leaves `sub`
   empty, because both are refused at the same point.
   */
  datatype Payload = Payload(kind: Option<Kind>, sub: Option<int>, tenantId: Option<int>, version: Option<int>,
                             exp: Option<int>, jti: Option<nat>)

  datatype Presented = BadSignature | Signed(payload: Payload)

  function PayloadOf(c: Claims): Payload {
    Payload(Some(c.kind), Some(c.userId), Some(c.tenantId), Some(c.version), Some(c.exp), Some(c.jti))
  }

  /** `_decode_refresh_token` on whatever is presented. */
  function DecodePresented(keys: Keys, token: Presented, now: Time): Result<Payload, AuthError> {
    if token.BadSignature? || (token.payload.exp.Some? && token.payload.exp.value < Seconds(now)) then Failure(InvalidToken)
    else
      var p := token.payload;
      if p.kind != Some(Refresh) then Failure(WrongType)
      else if p.jti.None? || p.exp.None? || p.tenantId.None? || p.version.None? then Failure(InvalidToken)
      else if Live(keys, p.jti.value, now) then Failure(Revoked)
      else Success(p)
  }

  /** The claims of a payload that carries them all. */
  function ClaimsOf(p: Payload): Claims
    requires p.kind.Some? && p.sub.Some? && p.tenantId.Some? && p.version.Some? && p.exp.Some? && p.jti.Some?
  {
    Claims(p.kind.value, p.sub.value, p.tenantId.value, p.version.value, p.exp.value, p.jti.value)
  }

  /** A token with all its claims is decoded like the claims; nothing else gets past decoding and the user id. */
  lemma DecodePresentedIff(keys: Keys, token: Presented, c: Claims, now: Time)
    ensures token == Signed(PayloadOf(c)) ==>
              && (DecodePresented(keys, token, now).Success? <==> DecodeRefresh(keys, c, now).Success?)
              && (DecodeRefresh(keys, c, now).Failure? ==>
                    DecodePresented(keys, token, now) == Failure(DecodeRefresh(keys, c, now).error))
    ensures DecodePresented(keys, token, now).Success? && token.payload.sub.Some? ==>
              var d := ClaimsOf(token.payload);
              token == Signed(PayloadOf(d)) && DecodeRefresh(keys, d, now) == Success(d)
  {
  }

  /** The user behind a token: present in its tenant, active, of an active tenant, and of the token's version. */
  function ActiveUser(users: map<int, User>, tenants: set<int>, c: Claims): Result<User, AuthError> {
    if c.userId !in users || users[c.userId].tenantId != c.tenantId || !users[c.userId].isActive then Failure(UserGone)
    else if c.tenantId !in tenants then Failure(TenantDenied)
    else if users[c.userId].tokenVersion != c.version then Failure(Revoked)
    else Success(users[c.userId])
  }

  /** `get_current_user`: whether an access token is let in. */
  predicate AccessAccepted(users: map<int, User>, tenants: set<int>, c: Claims, now: Time) {
    Decodes(c, now) && c.kind == Access && ActiveUser(users, tenants, c).Success?
  }

  // ---- who is let in, condition by condition ----

  /** The row is there in the token's tenant and active, its tenant is active, and the token is of its version. */
  ghost predicate Belongs(users: map<int, User>, tenants: set<int>, userId: int, tenantId: int, version: int) {
    userId in users && users[userId].tenantId == tenantId && users[userId].isActive && tenantId in tenants
    && users[userId].tokenVersion == version
  }

  /** A token that passes all checks before its claim: a refresh token with every member, not past its expiry second, no key set. */
  ghost predicate Rotatable(keys: Keys, users: map<int, User>, tenants: set<int>, token: Presented, now: Time) {
    && token.Signed? && token.payload.kind == Some(Refresh)
    && token.payload.jti.Some? && token.payload.exp.Some?
    && token.payload.tenantId.Some? && token.payload.version.Some? && token.payload.sub.Some?
    && Seconds(now) <= token.payload.exp.value
    && (token.payload.jti.value !in keys || keys[token.payload.jti.value] <= now)
    && Belongs(users, tenants, token.payload.sub.value, token.payload.tenantId.value, token.payload.version.value)
  }

  /** The first check that fails. */
  ghost function FirstFailure(keys: Keys, users: map<int, User>, tenants: set<int>, token: Presented, now: Time): AuthError {
    if token.BadSignature? then InvalidToken
    else
      var p := token.payload;
      if p.exp.Some? && p.exp.value < Seconds(now) then InvalidToken
      else if p.kind != Some(Refresh) then WrongType
      else if p.jti == None || p.exp == None || p.tenantId == None || p.version == None then InvalidToken
      else if p.jti.value in keys && now < keys[p.jti.value] then Revoked
      else if p.sub == None then InvalidToken
      else if p.sub.value !in users || users[p.sub.value].tenantId != p.tenantId.value || !users[p.sub.value].isActive then UserGone
      else if p.tenantId.value !in tenants then TenantDenied
      else Revoked  // an older version, or the claim itself
  }

  /** An access token is let in exactly when it is one, has not passed its expiry second, and belongs to such a user. */
  lemma AccessAcceptedIff(users: map<int, User>, tenants: set<int>, c: Claims, now: Time)
    ensures AccessAccepted(users, tenants, c, now) <==>
              c.kind == Access && Seconds(now) <= c.exp && Belongs(users, tenants, c.userId, c.tenantId, c.version)
    ensures ActiveUser(users, tenants, c).Success? <==> Belongs(users, tenants, c.userId, c.tenantId, c.version)
    ensures ActiveUser(users, tenants, c).Success? ==> ActiveUser(users, tenants, c).value == users[c.userId]
  {
  }

  class AuthService {
    var keys: Keys
    var users: map<int, User>
    var tenants: set<int>
    var nextJti: nat
    const accessLifetime: int
    const refreshLifetime: int

    method RevokeRefreshToken(jti: nat, expiresAt: int, requireNew: bool, readAt: Time, now: Time) returns (done: bool)
      modifies this`keys
      ensures (keys, done) == Revoke(old(keys), jti, expiresAt, requireNew, readAt, now)
    {
      var ttlSeconds := expiresAt - Seconds(readAt);
      if ttlSeconds <= 0 {
        return !requireNew;
      }
      if requireNew {
        if Live(keys, jti, now) {
          return false;
        }
        keys := keys[jti := now + ttlSeconds * SECOND];  // SET NX EX
        return true;
      }
      keys := keys[jti := now + ttlSeconds * SECOND];  // SET EX
      return true;
    }

    method MintPair(user: User, now: Time) returns (access: Claims, refresh: Claims)
      modifies this`nextJti
      ensures access == Claims(Access, user.id, user.tenantId, user.tokenVersion, Seconds(now) + accessLifetime, old(nextJti))
      ensures refresh == Claims(Refresh, user.id, user.tenantId, user.tokenVersion, Seconds(now) + refreshLifetime, old(nextJti) + 1)
      ensures nextJti == old(nextJti) + 2
    {
      access := Claims(Access, user.id, user.tenantId, user.tokenVersion, Seconds(now) + accessLifetime, nextJti);
      refresh := Claims(Refresh, user.id, user.tenantId, user.tokenVersion, Seconds(now) + refreshLifetime, nextJti + 1);
      nextJti := nextJti + 2;
    }

    /**
     The token is checked at one time, its time to live read at a later one, its key set and the new pair minted later
     still. Rotation succeeds exactly for an unrevoked refresh token of an active user whose time to live is read
     before its expiry second; the old token is then revoked.
     */
    method RotateRefreshToken(token: Presented, checkedAt: Time, readAt: Time, setAt: Time, mintedAt: Time)
      returns (result: Result<(Claims, Claims), AuthError>)
      requires checkedAt <= readAt <= setAt <= mintedAt
      requires forall id :: id in users ==> users[id].id == id
      modifies this`keys, this`nextJti
      ensures result.Success? <==>
                && DecodePresented(old(keys), token, checkedAt).Success? && token.payload.sub.Some?
                && ActiveUser(users, tenants, ClaimsOf(token.payload)).Success?
                && Seconds(readAt) < token.payload.exp.value
      ensures result.Success? <==> Rotatable(old(keys), users, tenants, token, checkedAt) && Seconds(readAt) < token.payload.exp.value
      ensures result.Failure? ==> result.error == FirstFailure(old(keys), users, tenants, token, checkedAt)
      ensures result.Success? ==>
                var p := token.payload;
                && p.jti.value in keys && p.exp.value * SECOND <= keys[p.jti.value]
                && keys == old(keys)[p.jti.value := keys[p.jti.value]]
                && result.value.0.userId == result.value.1.userId == p.sub.value
                && result.value.0.tenantId == result.value.1.tenantId == p.tenantId.value
                && result.value.0.version == result.value.1.version == p.version.value
      ensures result.Failure? ==>
                && keys == old(keys) && nextJti == old(nextJti)
                && result.error == (if DecodePresented(old(keys), token, checkedAt).Failure? then
                                      DecodePresented(old(keys), token, checkedAt).error
                                    else if token.payload.sub.None? then InvalidToken
                                    else if ActiveUser(users, tenants, ClaimsOf(token.payload)).Failure? then
                                      ActiveUser(users, tenants, ClaimsOf(token.payload)).error
                                    else Revoked)
      ensures result.Success? ==>
                var claims := ClaimsOf(token.payload);
                && keys == old(keys)[claims.jti := setAt + (claims.exp - Seconds(readAt)) * SECOND]
                && keys[claims.jti] >= claims.exp * SECOND
                && result.value == (Claims(Access, claims.userId, claims.tenantId, claims.version,
                                           Seconds(mintedAt) + accessLifetime, old(nextJti)),
                                    Claims(Refresh, claims.userId, claims.tenantId, claims.version,
                                           Seconds(mintedAt) + refreshLifetime, old(nextJti) + 1))
                && nextJti == old(nextJti) + 2
    {
      var decoded := DecodePresented(keys, token, checkedAt);
      if decoded.Failure? {
        return Failure(decoded.error);
      }
      if decoded.value.sub.None? {
        return Failure(InvalidToken);
      }
      var claims := ClaimsOf(decoded.value);
      var user := ActiveUser(users, tenants, claims);
      if user.Failure? {
        return Failure(user.error);
      }
      var claimed := RevokeRefreshToken(claims.jti, claims.exp, true, readAt, setAt);
      if !claimed {
        return Failure(Revoked);
      }
      var access, refresh := MintPair(user.value, mintedAt);
      result := Success((access, refresh));
    }

    method LogoutUser(token: Presented, checkedAt: Time, readAt: Time, setAt: Time) returns (result: Result<(), AuthError>)
      requires checkedAt <= readAt <= setAt
      modifies this`keys
      ensures result.Success? <==> DecodePresented(old(keys), token, checkedAt).Success?
      ensures result.Failure? ==> keys == old(keys) && result.error == DecodePresented(old(keys), token, checkedAt).error
      ensures result.Success? <==>
                && token.Signed? && token.payload.kind == Some(Refresh)
                && token.payload.jti.Some? && token.payload.exp.Some? && token.payload.tenantId.Some? && token.payload.version.Some?
                && Seconds(checkedAt) <= token.payload.exp.value
                && (token.payload.jti.value !in old(keys) || old(keys)[token.payload.jti.value] <= checkedAt)
      ensures result.Success? ==>
                var jti, exp := token.payload.jti.value, token.payload.exp.value;
                if exp <= Seconds(readAt) then keys == old(keys)
                else keys == old(keys)[jti := setAt + (exp - Seconds(readAt)) * SECOND] && keys[jti] >= exp * SECOND
    {
      var decoded := DecodePresented(keys, token, checkedAt);
      if decoded.Failure? {
        return Failure(decoded.error);
      }
      var _ := RevokeRefreshToken(decoded.value.jti.value, decoded.value.exp.value, false, readAt, setAt);
      result := Success(());
    }
  }

  // ---- the expiry boundary ----

  /** A revocation key outlives the token: it is there until the first instant of the expiry second. */
  lemma KeyOutlivesToken(keys: Keys, jti: nat, expiresAt: int, requireNew: bool, readAt: Time, now: Time)
    requires readAt <= now && Seconds(readAt) < expiresAt
    ensures var (keys', done) := Revoke(keys, jti, expiresAt, requireNew, readAt, now);
            (done ==> jti in keys' && keys'[jti] >= expiresAt * SECOND)
    ensures !requireNew ==> Revoke(keys, jti, expiresAt, requireNew, readAt, now).1
  {
  }

  /**
   After a successful claim, a second claim of the same token succeeds exactly when its time to live was computed
   before the expiry second but its SET runs after the first key is gone. A claim whose SET runs in the second its
   time to live was computed in is therefore always refused.
   */
  lemma SecondClaim(keys: Keys, jti: nat, expiresAt: int, read1: Time, set1: Time, read2: Time, set2: Time)
    requires read1 <= set1 <= set2 && read2 <= set2
    requires Revoke(keys, jti, expiresAt, true, read1, set1).1
    ensures var after := Revoke(keys, jti, expiresAt, true, read1, set1).0;
            && (Revoke(after, jti, expiresAt, true, read2, set2).1 <==>
                  Seconds(read2) < expiresAt && after[jti] <= set2)
            && (Seconds(read2) == Seconds(set2) ==> !Revoke(after, jti, expiresAt, true, read2, set2).1)
  {
    KeyOutlivesToken(keys, jti, expiresAt, true, read1, set1);
  }
}

/** The credential lifecycle (src/auth/auth.service.ts, with the user and
    reset-token rows of src/user/entities/user.entity.ts and
    src/auth/entities/reset-token.entity.ts): sign-up, password checks,
    access-token renewal gated by the user's token version, and the
    one-time-password reset flow. Hashing, token signing and verification,
    the random draw and the clock are parameters. */
module Auth {

  import opened Common
  import opened Strings

  /** A `user` row; `passwordHash` is the stored bcrypt hash. */
  datatype User = User(id: string, username: string, passwordHash: string, avatar: string, isAdmin: bool,
                       tokenVersion: int)

  /** A `reset_token` row. */
  datatype ResetToken = ResetToken(id: string, userId: string, otpHash: string, resetToken: Option<string>,
                                   expiresAt: int, used: bool, createdAt: int)

  datatype AuthError = NotFound(message: string) | Unauthorized(message: string) | BadRequest(message: string)

  /** The two signing keys: access and refresh tokens use different secrets. */
  datatype TokenKind = AccessKind | RefreshKind

  /** `sign({id, tokenVersion}, secret)`. */
  type Minter = (TokenKind, string, int) -> string

  /** `bcrypt.compare(plain, hash)`. */
  type Comparer = (string, string) -> bool

  datatype Tokens = Tokens(accessToken: string, refreshToken: string)

  /** `generateTokens`: both tokens carry the id and the version. */
  function TokensFor(mint: Minter, id: string, version: int): (t: Tokens)
    ensures t.accessToken == mint(AccessKind, id, version) && t.refreshToken == mint(RefreshKind, id, version)
  {
    Tokens(mint(AccessKind, id, version), mint(RefreshKind, id, version))
  }

  /** The minter and the refresh verifier agree: a refresh token verifies
      to the claims it was minted with. */
  ghost predicate RefreshRoundTrips(mint: Minter, verify: string -> Option<Claims>) {
    forall id, v :: verify(mint(RefreshKind, id, v)) == Some(Claims(id, Some(v)))
  }

  const AvatarBase: string := "https://ui-avatars.com/api/?name="
  const OtpLifetimeMs: int := 15 * 60 * 1000
  const OtpLow: nat := 100000
  const OtpSpan: nat := 900000

  // ----------------------------------------------------------------- lookups

  /** `findOneByUsername`: the first row with that username. */
  function UserByName(users: seq<User>, username: string): (r: Option<nat>)
    ensures r.Some? ==> r.value < |users| && users[r.value].username == username
    ensures r.None? ==> forall k :: 0 <= k < |users| ==> users[k].username != username
  {
    if users == [] then None
    else if users[0].username == username then Some(0)
    else match UserByName(users[1..], username)
      case None => None
      case Some(k) => Some(k + 1)
  }

  /** `findOne(id)`: the row with that id. */
  function UserById(users: seq<User>, id: string): (r: Option<nat>)
    ensures r.Some? ==> r.value < |users| && users[r.value].id == id
    ensures r.Some? ==> forall k :: 0 <= k < r.value ==> users[k].id != id
    ensures r.None? ==> forall k :: 0 <= k < |users| ==> users[k].id != id
  {
    if users == [] then None
    else if users[0].id == id then Some(0)
    else match UserById(users[1..], id)
      case None => None
      case Some(k) => Some(k + 1)
  }

  /** A record the OTP step may use: the user's, unused and not expired. */
  predicate Pending(t: ResetToken, userId: string, now: int) {
    t.userId == userId && !t.used && t.expiresAt > now
  }

  /** The pending record created last (the first of the latest on a tie). */
  function LatestPending(tokens: seq<ResetToken>, userId: string, now: int): (r: Option<nat>)
    ensures r.Some? ==> r.value < |tokens| && Pending(tokens[r.value], userId, now)
    ensures r.Some? ==> forall k :: 0 <= k < |tokens| && Pending(tokens[k], userId, now) ==>
                          tokens[k].createdAt <= tokens[r.value].createdAt
    ensures r.None? ==> forall k :: 0 <= k < |tokens| ==> !Pending(tokens[k], userId, now)
  {
    if tokens == [] then None
    else
      var init := LatestPending(tokens[..|tokens| - 1], userId, now);
      var last := |tokens| - 1;
      assert forall k :: 0 <= k < last ==> tokens[..last][k] == tokens[k];
      if !Pending(tokens[last], userId, now) then init
      else if init.Some? && tokens[last].createdAt <= tokens[init.value].createdAt then init
      else Some(last)
  }

  /** A record the reset step accepts: OTP verified, this reset token, not expired. */
  predicate Redeemable(t: ResetToken, resetToken: string, now: int) {
    t.resetToken == Some(resetToken) && t.used && t.expiresAt > now
  }

  /** The first record the reset step accepts. */
  function RedeemableIndex(tokens: seq<ResetToken>, resetToken: string, now: int): (r: Option<nat>)
    ensures r.Some? ==> r.value < |tokens| && Redeemable(tokens[r.value], resetToken, now)
    ensures r.None? ==> forall k :: 0 <= k < |tokens| ==> !Redeemable(tokens[k], resetToken, now)
  {
    if tokens == [] then None
    else if Redeemable(tokens[0], resetToken, now) then Some(0)
    else match RedeemableIndex(tokens[1..], resetToken, now)
      case None => None
      case Some(k) => Some(k + 1)
  }

  // --------------------------------------------------------- pure decisions

  /** `validateUser`. */
  function Validate(users: seq<User>, username: string, password: string, compare: Comparer): (r: Result<User, AuthError>)
    ensures UserByName(users, username).None? <==> r.Err? && r.error.NotFound?
    ensures r.Ok? <==> UserByName(users, username).Some?
                       && compare(password, users[UserByName(users, username).value].passwordHash)
    ensures r.Ok? ==> r.value == users[UserByName(users, username).value] && r.value.username == username
    ensures r.Err? && r.error.Unauthorized? ==> r.error.message == "Incorrect password"
  {
    var at := UserByName(users, username);
    if at.None? then Err(NotFound("There is no user under this username"))
    else if compare(password, users[at.value].passwordHash) then Ok(users[at.value])
    else Err(Unauthorized("Incorrect password"))
  }

  /** `updateAccessToken`: a fresh access token for a refresh token that
      verifies, names an existing user and carries that user's current
      version; `None` (null) otherwise. */
  function RenewedAccess(users: seq<User>, refreshToken: string, verify: string -> Option<Claims>,
                         mint: Minter): (r: Option<string>)
    ensures r.Some? <==>
              verify(refreshToken).Some? && UserById(users, verify(refreshToken).value.id).Some?
              && verify(refreshToken).value.tokenVersion
                 == Some(users[UserById(users, verify(refreshToken).value.id).value].tokenVersion)
    ensures r.Some? ==>
              r.value == mint(AccessKind, verify(refreshToken).value.id, verify(refreshToken).value.tokenVersion.value)
  {
    match verify(refreshToken)
    case None => None
    case Some(claims) =>
      match UserById(users, claims.id)
      case None => None
      case Some(k) =>
        if claims.tokenVersion != Some(users[k].tokenVersion) then None
        else Some(TokensFor(mint, users[k].id, users[k].tokenVersion).accessToken)
  }

  /** A new password and the next token version for the user at `k`. */
  function Rekeyed(users: seq<User>, k: nat, hash: string): (r: seq<User>)
    requires k < |users|
    ensures |r| == |users| && r[k].tokenVersion == users[k].tokenVersion + 1 && r[k].passwordHash == hash
    ensures r[k].id == users[k].id && r[k].username == users[k].username
    ensures forall j :: 0 <= j < |users| && j != k ==> r[j] == users[j]
  {
    users[k := users[k].(passwordHash := hash, tokenVersion := users[k].tokenVersion + 1)]
  }

  /** The six-digit code `String(floor(100000 + random * 900000))` for a draw
      `floor(random * 900000)`. */
  function Otp(draw: nat): (otp: string)
    requires draw < OtpSpan
    ensures |otp| == 6 && AllDigits(otp)
    ensures OtpLow <= DecimalValue(otp) < OtpLow + OtpSpan
  {
    assert Pow10(2) == 100 && Pow10(4) == 10000;
    assert Pow10(5) == 100000 && Pow10(6) == 1000000;
    DecimalLength(OtpLow + draw, 6);
    DecimalRoundTrip(OtpLow + draw);
    DecimalString(OtpLow + draw)
  }

  // ---------------------------------------------------------------- service

  class AuthService {
    /** The `user` table. */
    var users: seq<User>
    /** The `reset_token` table. */
    var tokens: seq<ResetToken>

    constructor()
      ensures users == [] && tokens == []
    {
      users := [];
      tokens := [];
    }

    /** `singUp`: nothing for a taken username; otherwise a new user with
        version 0, the default avatar when none is given, and its tokens. */
    method SignUp(username: string, password: string, avatar: Option<string>, isAdmin: Option<bool>,
                  hash: string, newId: string, mint: Minter) returns (r: Option<(Tokens, User)>)
      requires UserById(users, newId).None?
      modifies this
      ensures UserByName(old(users), username).Some? ==> r.None? && users == old(users)
      ensures UserByName(old(users), username).None? ==>
                r.Some? && users == old(users) + [r.value.1]
                && r.value.1 == User(newId, username, hash, if Truthy(avatar) then avatar.value else AvatarBase + username,
                                     isAdmin == Some(true), 0)
                && r.value.0 == TokensFor(mint, newId, 0)
      ensures tokens == old(tokens)
    {
      if UserByName(users, username).Some? {
        return None;
      }
      var user := User(newId, username, hash, if Truthy(avatar) then avatar.value else AvatarBase + username,
                       isAdmin == Some(true), 0);
      users := users + [user];
      r := Some((TokensFor(mint, user.id, user.tokenVersion), user));
    }

    /** `signIn`: the tokens of the user with that username, at its current
        version, without looking at the password (the route checks it
        first). An unknown username makes the code read a field of null,
        which is `None` here. */
    method SignIn(username: string, mint: Minter) returns (r: Option<(Tokens, User)>)
      ensures r.Some? <==> UserByName(users, username).Some?
      ensures r.Some? ==> r.value.1 == users[UserByName(users, username).value] && r.value.1.username == username
                          && r.value.0 == TokensFor(mint, r.value.1.id, r.value.1.tokenVersion)
    {
      var at := UserByName(users, username);
      if at.None? {
        return None;
      }
      var user := users[at.value];
      r := Some((TokensFor(mint, user.id, user.tokenVersion), user));
    }

    /** `validateUser`. */
    method ValidateUser(username: string, password: string, compare: Comparer) returns (r: Result<User, AuthError>)
      ensures r == Validate(users, username, password, compare)
    {
      var at := UserByName(users, username);
      if at.None? {
        return Err(NotFound("There is no user under this username"));
      }
      if compare(password, users[at.value].passwordHash) {
        return Ok(users[at.value]);
      }
      return Err(Unauthorized("Incorrect password"));
    }

    /** `updateAccessToken`. */
    method UpdateAccessToken(refreshToken: string, verify: string -> Option<Claims>, mint: Minter)
      returns (r: Option<string>)
      ensures r == RenewedAccess(users, refreshToken, verify, mint)
    {
      var claims := verify(refreshToken);
      if claims.None? {
        return None;
      }
      var at := UserById(users, claims.value.id);
      if at.None? {
        return None;
      }
      var user := users[at.value];
      if claims.value.tokenVersion != Some(user.tokenVersion) {
        return None;
      }
      var issued := TokensFor(mint, user.id, user.tokenVersion);
      return Some(issued.accessToken);
    }

    /** `forgotPassword`: store an unused record for the user that expires
        fifteen minutes from now, and hand back the code. */
    method ForgotPassword(username: string, draw: nat, otpHash: string, newId: string, now: int)
      returns (r: Result<string, AuthError>)
      requires draw < OtpSpan
      modifies this
      ensures UserByName(old(users), username).None? ==>
                r == Err(NotFound("User not found")) && tokens == old(tokens)
      ensures UserByName(old(users), username).Some? ==>
                r == Ok(Otp(draw))
                && tokens == old(tokens) + [ResetToken(newId, old(users)[UserByName(old(users), username).value].id,
                                                       otpHash, None, now + OtpLifetimeMs, false, now)]
      ensures users == old(users)
    {
      var at := UserByName(users, username);
      if at.None? {
        return Err(NotFound("User not found"));
      }
      var otp := Otp(draw);
      tokens := tokens + [ResetToken(newId, users[at.value].id, otpHash, None, now + OtpLifetimeMs, false, now)];
      r := Ok(otp);
    }

    /** `verifyOtp`: check the code against the latest pending record; on a
        match mark it used and attach a fresh reset token. */
    method VerifyOtp(username: string, otp: string, compare: Comparer, resetToken: string, now: int)
      returns (r: Result<string, AuthError>)
      modifies this
      ensures users == old(users)
      ensures UserByName(old(users), username).None? ==>
                r == Err(NotFound("User not found")) && tokens == old(tokens)
      ensures var at := UserByName(old(users), username);
              at.Some? && LatestPending(old(tokens), old(users)[at.value].id, now).None? ==>
                r == Err(BadRequest("No valid OTP found")) && tokens == old(tokens)
      ensures var at := UserByName(old(users), username);
              at.Some? && LatestPending(old(tokens), old(users)[at.value].id, now).Some? ==>
                var t := LatestPending(old(tokens), old(users)[at.value].id, now).value;
                if compare(otp, old(tokens)[t].otpHash) then
                  r == Ok(resetToken)
                  && tokens == old(tokens)[t := old(tokens)[t].(resetToken := Some(resetToken), used := true)]
                else
                  r == Err(BadRequest("Invalid OTP")) && tokens == old(tokens)
    {
      var at := UserByName(users, username);
      if at.None? {
        return Err(NotFound("User not found"));
      }
      var found := LatestPending(tokens, users[at.value].id, now);
      if found.None? {
        return Err(BadRequest("No valid OTP found"));
      }
      var record := tokens[found.value];
      if !compare(otp, record.otpHash) {
        return Err(BadRequest("Invalid OTP"));
      }
      record := record.(resetToken := Some(resetToken), used := true);
      tokens := tokens[found.value := record];
      r := Ok(resetToken);
    }

    /** `changePassword`: on the right current password store the new hash,
        move to the next version and issue tokens for it. */
    method ChangePassword(userId: string, current: string, hash: string, compare: Comparer, mint: Minter)
      returns (r: Result<Tokens, AuthError>)
      modifies this
      ensures tokens == old(tokens)
      ensures UserById(old(users), userId).None? ==> r.Err? && r.error.NotFound? && users == old(users)
      ensures var at := UserById(old(users), userId);
              at.Some? && !compare(current, old(users)[at.value].passwordHash) ==>
                r == Err(Unauthorized("Current password is incorrect")) && users == old(users)
      ensures var at := UserById(old(users), userId);
              at.Some? && compare(current, old(users)[at.value].passwordHash) ==>
                users == Rekeyed(old(users), at.value, hash)
                && r == Ok(TokensFor(mint, userId, old(users)[at.value].tokenVersion + 1))
    {
      var at := UserById(users, userId);
      if at.None? {
        return Err(NotFound("There is no user under id " + userId));
      }
      var user := users[at.value];
      if !compare(current, user.passwordHash) {
        return Err(Unauthorized("Current password is incorrect"));
      }
      var version := user.tokenVersion + 1;
      users := users[at.value := user.(passwordHash := hash, tokenVersion := version)];
      r := Ok(TokensFor(mint, userId, version));
    }

    /** `resetPassword`: redeem a verified, unexpired record: store the new
        hash, move its user to the next version and delete the record. */
    method ResetPassword(resetToken: string, hash: string, now: int) returns (r: Result<(), AuthError>)
      modifies this
      ensures RedeemableIndex(old(tokens), resetToken, now).None? ==>
                r == Err(BadRequest("Invalid or expired reset token")) && users == old(users) && tokens == old(tokens)
      ensures var t := RedeemableIndex(old(tokens), resetToken, now);
              t.Some? && UserById(old(users), old(tokens)[t.value].userId).None? ==>
                r.Err? && r.error.NotFound? && users == old(users) && tokens == old(tokens)
      ensures var t := RedeemableIndex(old(tokens), resetToken, now);
              t.Some? && UserById(old(users), old(tokens)[t.value].userId).Some? ==>
                r == Ok(())
                && users == Rekeyed(old(users), UserById(old(users), old(tokens)[t.value].userId).value, hash)
                && tokens == old(tokens)[..t.value] + old(tokens)[t.value + 1..]
    {
      var t := RedeemableIndex(tokens, resetToken, now);
      if t.None? {
        return Err(BadRequest("Invalid or expired reset token"));
      }
      var at := UserById(users, tokens[t.value].userId);
      if at.None? {
        return Err(NotFound("There is no user under id " + tokens[t.value].userId));
      }
      var user := users[at.value];
      users := users[at.value := user.(passwordHash := hash, tokenVersion := user.tokenVersion + 1)];
      tokens := tokens[..t.value] + tokens[t.value + 1..];
      r := Ok(());
    }
  }

  // ------------------------------------------------------------ properties

  /** A changed or reset password revokes every refresh token minted for
      the old version, and the tokens minted for the new version renew. */
  lemma {:induction false} RekeyingRevokesOldTokens(users: seq<User>, k: nat, hash: string, refreshToken: string,
                                                    verify: string -> Option<Claims>, mint: Minter)
    requires k < |users| && UserById(users, users[k].id) == Some(k)
    requires verify(refreshToken) == Some(Claims(users[k].id, Some(users[k].tokenVersion)))
    requires RefreshRoundTrips(mint, verify)
    ensures RenewedAccess(users, refreshToken, verify, mint).Some?
    ensures RenewedAccess(Rekeyed(users, k, hash), refreshToken, verify, mint).None?
    ensures RenewedAccess(Rekeyed(users, k, hash), TokensFor(mint, users[k].id, users[k].tokenVersion + 1).refreshToken,
                          verify, mint).Some?
  {
    var after := Rekeyed(users, k, hash);
    SameIdAfterRekey(users, k, hash);
    assert UserById(after, users[k].id) == Some(k);
    assert verify(mint(RefreshKind, users[k].id, users[k].tokenVersion + 1))
           == Some(Claims(users[k].id, Some(users[k].tokenVersion + 1)));
  }

  /** The refresh token a sign-in or sign-up hands out renews to the access
      token issued beside it, as long as the user's version is unchanged. */
  lemma IssuedRefreshRenews(users: seq<User>, k: nat, verify: string -> Option<Claims>, mint: Minter)
    requires k < |users| && UserById(users, users[k].id) == Some(k)
    requires RefreshRoundTrips(mint, verify)
    ensures var t := TokensFor(mint, users[k].id, users[k].tokenVersion);
            RenewedAccess(users, t.refreshToken, verify, mint) == Some(t.accessToken)
  {
    assert verify(mint(RefreshKind, users[k].id, users[k].tokenVersion))
           == Some(Claims(users[k].id, Some(users[k].tokenVersion)));
  }

  /** Rekeying keeps every id where it was. */
  lemma {:induction false} SameIdAfterRekey(users: seq<User>, k: nat, hash: string)
    requires k < |users|
    ensures forall id :: UserById(Rekeyed(users, k, hash), id) == UserById(users, id)
  {
    var after := Rekeyed(users, k, hash);
    forall id ensures UserById(after, id) == UserById(users, id) {
      var a := UserById(after, id);
      var b := UserById(users, id);
      assert forall j :: 0 <= j < |users| ==> after[j].id == users[j].id;
      if a.Some? && b.Some? {
        assert !(a.value < b.value) && !(b.value < a.value);
      }
    }
  }

  /** A verified record is no longer pending, so the same code cannot be
      verified against it twice. */
  lemma VerifiedRecordIsSpent(tokens: seq<ResetToken>, t: nat, resetToken: string, userId: string, now: int, later: int)
    requires t < |tokens|
    ensures !Pending(tokens[t := tokens[t].(resetToken := Some(resetToken), used := true)][t], userId, later)
  {
  }

  /** Once a reset token is redeemed its record is gone: with reset tokens
      unique across records, a second reset with it fails. */
  lemma {:induction false} ResetTokenSingleUse(tokens: seq<ResetToken>, resetToken: string, now: int, later: int)
    requires RedeemableIndex(tokens, resetToken, now).Some?
    requires forall i, j :: 0 <= i < j < |tokens| && tokens[i].resetToken == Some(resetToken) ==>
               tokens[j].resetToken != Some(resetToken)
    ensures var t := RedeemableIndex(tokens, resetToken, now).value;
            RedeemableIndex(tokens[..t] + tokens[t + 1..], resetToken, later).None?
  {
    var t := RedeemableIndex(tokens, resetToken, now).value;
    var rest := tokens[..t] + tokens[t + 1..];
    forall k | 0 <= k < |rest| ensures !Redeemable(rest[k], resetToken, later) {
      if k < t {
        assert rest[k] == tokens[k];
      } else {
        assert rest[k] == tokens[k + 1];
      }
    }
  }

  /** Only a record whose code was verified can be redeemed: a fresh record
      from the forgot-password step is never accepted by the reset step. */
  lemma FreshRecordNotRedeemable(id: string, userId: string, otpHash: string, now: int, resetToken: string, later: int)
    ensures !Redeemable(ResetToken(id, userId, otpHash, None, now + OtpLifetimeMs, false, now), resetToken, later)
  {
  }

  /** A pending record exists exactly until fifteen minutes after it was made. */
  lemma RecordExpiresAfterFifteenMinutes(id: string, userId: string, otpHash: string, now: int, later: int)
    ensures Pending(ResetToken(id, userId, otpHash, None, now + OtpLifetimeMs, false, now), userId, later)
            <==> later < now + 900000
  {
  }

  /** Signing up and then validating with the same password succeeds when
      the stored hash is one the comparer accepts for it. */
  lemma {:induction false} SignUpThenValidate(users: seq<User>, u: User, password: string, compare: Comparer)
    requires UserByName(users, u.username).None?
    requires compare(password, u.passwordHash)
    ensures Validate(users + [u], u.username, password, compare) == Ok(u)
  {
    var all := users + [u];
    assert forall k :: 0 <= k < |users| ==> all[k] == users[k];
    UserByNameLast(users, u);
  }

  lemma {:induction false} UserByNameLast(users: seq<User>, u: User)
    requires UserByName(users, u.username).None?
    ensures UserByName(users + [u], u.username) == Some(|users|)
    decreases |users|
  {
    if users != [] {
      assert (users + [u])[1..] == users[1..] + [u];
      UserByNameLast(users[1..], u);
    }
  }
}

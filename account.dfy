/** The account lifecycle routes: sign-up with an e-mailed code
    (send-verification), confirming the code (verify-email), requesting and
    consuming a password-reset link (reset-password POST and PATCH), and
    the hourly removal of stale unverified accounts.  Hashing, the random
    draws and the mail transport's outcome are parameters. */
module Account {
  import opened Common
  import opened UserModel
  import opened Store

  /** POST /api/auth/send-verification.  The new user is stored unverified
      with its code before the mail goes out; a failed send answers 500 but
      the stored user stays.  Every failure answers the same 500.  As
      written, `generateVerificationOTP` leaves `verificationExpiry` unset,
      so the stored account has no expiry for `verifyOTP` to compare and
      its code never verifies (`RegisteredUserCannotVerify`).
      `mailed` is the code put in the mail, when one is sent. */
  method SendVerification(db: Database, name: string, email: string, password: Option<string>, draw: real,
                          mailOk: bool, now: int, newId: Id, hash: string -> string)
    returns (r: Response<()>, mailed: Option<string>)
    requires 0.0 <= draw < 1.0
    requires db.Valid() && newId !in db.users
    modifies db
    ensures db.Valid()
    ensures db.conversations == old(db.conversations) && db.messages == old(db.messages)
    ensures db.requests == old(db.requests) && db.projects == old(db.projects)
    ensures HasEmail(old(db.users), email) ==>
              r == Err(400, "User already exists") && mailed.None? && db.users == old(db.users)
    ensures !HasEmail(old(db.users), email) ==>
              var stored := Stored(AfterOtpIssued(NewUser(name, email, password, false, None, now), draw), password.Some?, hash);
              if !UserValid(stored) then
                r == Err(500, "Failed to send verification") && mailed.None? && db.users == old(db.users)
              else
                && db.users == old(db.users)[newId := stored]
                && stored.verificationExpiry.None?
                && mailed == stored.verificationOTP
                && |mailed.value| == 6
                && r == (if mailOk then Ok(200, ()) else Err(500, "Failed to send verification"))
  {
    if HasEmail(db.users, email) {
      return Err(400, "User already exists"), None;
    }
    var user := new UserDoc.Create(NewUser(name, email, password, false, None, now));
    var otp := user.GenerateVerificationOtp(draw, now);
    var stored := user.Save(hash);
    if !UserValid(stored) {
      return Err(500, "Failed to send verification"), None;
    }
    FreshEmailKeepsUnique(db.users, newId, stored);
    db.users := db.users[newId := stored];
    mailed := Some(otp);
    if !mailOk {
      return Err(500, "Failed to send verification"), mailed;
    }
    return Ok(200, ()), mailed;
  }

  /** The same route with the evidently intended code issue: the expiry
      lands in `verificationExpiry`, where `verifyOTP` reads it, so the
      mailed code verifies the account (`RegisteredUserVerifiesWhenCorrected`). */
  method SendVerificationCorrected(db: Database, name: string, email: string, password: Option<string>, draw: real,
                                   mailOk: bool, now: int, newId: Id, hash: string -> string)
    returns (r: Response<()>, mailed: Option<string>)
    requires 0.0 <= draw < 1.0
    requires db.Valid() && newId !in db.users
    modifies db
    ensures db.Valid()
    ensures db.conversations == old(db.conversations) && db.messages == old(db.messages)
    ensures db.requests == old(db.requests) && db.projects == old(db.projects)
    ensures HasEmail(old(db.users), email) ==>
              r == Err(400, "User already exists") && mailed.None? && db.users == old(db.users)
    ensures !HasEmail(old(db.users), email) ==>
              var stored := Stored(AfterOtpIssuedCorrected(NewUser(name, email, password, false, None, now), draw, now), password.Some?, hash);
              if !UserValid(stored) then
                r == Err(500, "Failed to send verification") && mailed.None? && db.users == old(db.users)
              else
                && db.users == old(db.users)[newId := stored]
                && stored.verificationExpiry == Some(now + OtpLifetimeMs)
                && mailed == stored.verificationOTP
                && |mailed.value| == 6
                && r == (if mailOk then Ok(200, ()) else Err(500, "Failed to send verification"))
  {
    if HasEmail(db.users, email) {
      return Err(400, "User already exists"), None;
    }
    var user := new UserDoc.Create(NewUser(name, email, password, false, None, now));
    var otp := user.GenerateVerificationOtpCorrected(draw, now);
    var stored := user.Save(hash);
    if !UserValid(stored) {
      return Err(500, "Failed to send verification"), None;
    }
    FreshEmailKeepsUnique(db.users, newId, stored);
    db.users := db.users[newId := stored];
    mailed := Some(otp);
    if !mailOk {
      return Err(500, "Failed to send verification"), mailed;
    }
    return Ok(200, ()), mailed;
  }

  /** As written, an account created by sign-up can never be verified: its
      code is stored, but its `verificationExpiry` stays absent, so
      `verifyOTP` refuses even the mailed code, at any time. */
  lemma {:induction false} RegisteredUserCannotVerify(name: string, email: string, password: Option<string>, draw: real,
                                                      now: int, hash: string -> string, otp: Option<string>, later: int)
    requires 0.0 <= draw < 1.0
    ensures !VerifyOtpResult(Stored(AfterOtpIssued(NewUser(name, email, password, false, None, now), draw),
                                    password.Some?, hash), otp, later).0
  {
    var u := NewUser(name, email, password, false, None, now);
    IssuedOtpNeverVerifies(u, draw, later);
    assert Stored(AfterOtpIssued(u, draw), password.Some?, hash).verificationExpiry.None?;
  }

  /** With the corrected code issue, the mailed code verifies the new
      account for ten minutes, and only that code does. */
  lemma {:induction false} RegisteredUserVerifiesWhenCorrected(name: string, email: string, password: Option<string>, draw: real,
                                                               now: int, hash: string -> string, otp: Option<string>, later: int)
    requires 0.0 <= draw < 1.0
    ensures var stored := Stored(AfterOtpIssuedCorrected(NewUser(name, email, password, false, None, now), draw, now),
                                 password.Some?, hash);
            VerifyOtpResult(stored, otp, later).0 <==> otp == stored.verificationOTP && later < now + OtpLifetimeMs
  {
    var u := NewUser(name, email, password, false, None, now);
    CorrectedOtpVerifies(u, draw, now, later, otp);
  }

  /** The document steps of the verification: load the user, `verifyOTP`,
      and on success mark it verified and save it. */
  method CheckOtp(r: UserRecord, otp: Option<string>, now: int, hash: string -> string)
    returns (ok: bool, stored: UserRecord)
    ensures ok == VerifyOtpResult(r, otp, now).0
    ensures ok ==> stored == VerifyOtpResult(r, otp, now).1 && stored.isVerified == Some(true)
  {
    var user := new UserDoc.Load(r);
    ok := user.VerifyOtp(otp, now);
    stored := r;
    if ok {
      user.isVerified := Some(true);
      stored := user.Save(hash);
    }
  }

  /** POST /api/auth/verify-email: the code of the user with this e-mail
      is checked; a refusal saves nothing. */
  method VerifyEmail(db: Database, email: string, otp: Option<string>, now: int, hash: string -> string)
    returns (r: Response<()>)
    requires db.Valid()
    modifies db
    ensures db.Valid()
    ensures db.conversations == old(db.conversations) && db.messages == old(db.messages)
    ensures db.requests == old(db.requests) && db.projects == old(db.projects)
    ensures !HasEmail(old(db.users), email) ==> r == Err(404, "User not found") && db.users == old(db.users)
    ensures HasEmail(old(db.users), email) ==>
              var id := FindByEmail(old(db.users), email);
              var (ok, after) := VerifyOtpResult(old(db.users)[id], otp, now);
              if !ok then r == Err(400, "Invalid or expired OTP") && db.users == old(db.users)
              else if !UserValid(after) then r == Err(500, "Failed to verify email") && db.users == old(db.users)
              else r == Ok(200, ()) && db.users == old(db.users)[id := after] && after.isVerified == Some(true)
  {
    if !HasEmail(db.users, email) {
      return Err(404, "User not found");
    }
    var id :| id in db.users && db.users[id].email == email;
    assert id == FindByEmail(db.users, email);
    var ok, stored := CheckOtp(db.users[id], otp, now, hash);
    if !ok {
      return Err(400, "Invalid or expired OTP");
    }
    if !UserValid(stored) {
      return Err(500, "Failed to verify email");
    }
    SameEmailKeepsUnique(db.users, id, stored);
    db.users := db.users[id := stored];
    return Ok(200, ());
  }

  /** The link mailed for a reset: the site's base, the reset page, and the
      raw token URI-encoded as the `token` query parameter. */
  function ResetUrl(production: bool, token: string): (url: string)
    ensures StartsWith(url, BaseUrl(production) + "/auth/reset-password?token=")
    ensures url == BaseUrl(production) + "/auth/reset-password?token=" + EncodeURIComponent(token)
  {
    BaseUrl(production) + "/auth/reset-password?token=" + EncodeURIComponent(token)
  }

  function BaseUrl(production: bool): string {
    if production then "https://yourdomain.com" else "http://localhost:3000"
  }

  /** The route's sanity check `includes("token=")` never fails. */
  lemma {:induction false} ResetUrlHasToken(production: bool, token: string)
    ensures Contains(ResetUrl(production, token), "token=")
  {
    var url := ResetUrl(production, token);
    var prefix := BaseUrl(production) + "/auth/reset-password?";
    assert url == prefix + "token=" + EncodeURIComponent(token);
    assert url[|prefix|..|prefix| + 6] == "token=";
    ContainsAt(url, "token=", |prefix|);
  }

  /** A hex token (what `randomBytes(32).toString("hex")` yields) appears in
      the link unencoded. */
  lemma HexTokenUnencoded(production: bool, token: string)
    requires forall i :: 0 <= i < |token| ==> '0' <= token[i] <= '9' || 'a' <= token[i] <= 'f'
    ensures ResetUrl(production, token) == BaseUrl(production) + "/auth/reset-password?token=" + token
  {
  }

  /** The `message` of the reset routes' successful answers. */
  const NoAccount := "No account found with that email address."
  const ResetRequestFailed := "Failed to process password reset request. Please try again later."
  const ResetMailed := "Password reset email sent successfully. Please check your inbox."
  const ResetDone := "Password has been reset successfully!"

  /** The document steps of a reset request: load the user, generate the
      token and save it. */
  method IssueResetToken(r: UserRecord, raw: string, now: int, sha256: string -> string, hash: string -> string)
    returns (token: string, stored: UserRecord)
    ensures token == raw && stored == WithResetToken(r, raw, now, sha256)
  {
    var user := new UserDoc.Load(r);
    token := user.GenerateResetToken(raw, now, sha256);
    stored := user.Save(hash);
  }

  /** POST /api/auth/reset-password: stores the new token's hash and
      expiry, then mails the link.  The mail's outcome is not looked at, so
      a known e-mail always gets 200.  `raw` is the random token;
      `mailedUrl` is the link put in the mail. */
  method RequestReset(db: Database, email: string, raw: string, now: int, production: bool,
                      sha256: string -> string, hash: string -> string)
    returns (r: Response<string>, mailedUrl: Option<string>)
    requires db.Valid()
    modifies db
    ensures db.Valid()
    ensures db.conversations == old(db.conversations) && db.messages == old(db.messages)
    ensures db.requests == old(db.requests) && db.projects == old(db.projects)
    ensures !HasEmail(old(db.users), email) ==>
              r == Err(404, NoAccount) && mailedUrl.None? && db.users == old(db.users)
    ensures HasEmail(old(db.users), email) ==>
              var id := FindByEmail(old(db.users), email);
              var after := WithResetToken(old(db.users)[id], raw, now, sha256);
              if !UserValid(after) then
                && r == Err(500, ResetRequestFailed)
                && mailedUrl.None? && db.users == old(db.users)
              else
                && r == Ok(200, ResetMailed)
                && db.users == old(db.users)[id := after]
                && mailedUrl == Some(ResetUrl(production, raw))
  {
    if !HasEmail(db.users, email) {
      return Err(404, NoAccount), None;
    }
    var id :| id in db.users && db.users[id].email == email;
    assert id == FindByEmail(db.users, email);
    var token, stored := IssueResetToken(db.users[id], raw, now, sha256, hash);
    if !UserValid(stored) {
      return Err(500, ResetRequestFailed), None;
    }
    SameEmailKeepsUnique(db.users, id, stored);
    db.users := db.users[id := stored];
    var url := ResetUrl(production, token);
    return Ok(200, ResetMailed), Some(url);
  }

  /** A user the reset link can still open. */
  predicate HasValidToken(users: map<Id, UserRecord>, token: string, now: int, sha256: string -> string) {
    exists id :: id in users && ResetTokenValid(users[id], token, now, sha256)
  }

  /** The document steps of a reset: load the user, set the new password,
      clear the token and save, which hashes the password. */
  method ResetDocument(r: UserRecord, password: string, hash: string -> string) returns (stored: UserRecord)
    requires password != ""
    ensures stored == Reset(r, password, hash)
  {
    var user := new UserDoc.Load(r);
    user.SetPassword(password);
    user.ClearResetToken();
    stored := user.Save(hash);
  }

  /** PATCH /api/auth/reset-password: the user whose stored hash matches
      the token's and whose token has not expired gets the new (hashed)
      password, and the token is cleared. */
  method ConsumeReset(db: Database, token: Option<string>, password: Option<string>, now: int,
                      sha256: string -> string, hash: string -> string)
    returns (r: Response<string>)
    requires db.Valid()
    modifies db
    ensures db.Valid()
    ensures db.conversations == old(db.conversations) && db.messages == old(db.messages)
    ensures db.requests == old(db.requests) && db.projects == old(db.projects)
    ensures !Present(token) || !Present(password) ==>
              r == Err(400, "Token and password are required") && db.users == old(db.users)
    ensures Present(token) && Present(password) && !HasValidToken(old(db.users), token.value, now, sha256) ==>
              r == Err(400, "Invalid token or token has expired") && db.users == old(db.users)
    ensures Present(token) && Present(password) && HasValidToken(old(db.users), token.value, now, sha256) ==>
              exists id :: id in old(db.users) && ResetTokenValid(old(db.users)[id], token.value, now, sha256) &&
                var after := Reset(old(db.users)[id], password.value, hash);
                if UserValid(after) then r == Ok(200, ResetDone) && db.users == old(db.users)[id := after]
                else r == Err(500, "Internal server error") && db.users == old(db.users)
  {
    if !Present(token) || !Present(password) {
      return Err(400, "Token and password are required");
    }
    if !HasValidToken(db.users, token.value, now, sha256) {
      return Err(400, "Invalid token or token has expired");
    }
    var id :| id in db.users && ResetTokenValid(db.users[id], token.value, now, sha256);
    var stored := ResetDocument(db.users[id], password.value, hash);
    if !UserValid(stored) {
      return Err(500, "Internal server error");
    }
    SameEmailKeepsUnique(db.users, id, stored);
    db.users := db.users[id := stored];
    return Ok(200, ResetDone);
  }

  /** The record a successful reset stores: the hashed new password and no
      token. */
  function Reset(u: UserRecord, password: string, hash: string -> string): (r: UserRecord)
    requires password != ""
    ensures r.password == Some(hash(password))
    ensures r.resetToken.None? && r.resetTokenExpiry.None?
    ensures r.(password := u.password, resetToken := u.resetToken, resetTokenExpiry := u.resetTokenExpiry) == u
  {
    Stored(WithoutResetToken(u.(password := Some(password))), true, hash)
  }

  /** A link works once: after a reset, no token opens that account. */
  lemma ResetTokenSingleUse(u: UserRecord, password: string, hash: string -> string, token: string, later: int,
                            sha256: string -> string)
    requires password != ""
    ensures !ResetTokenValid(Reset(u, password, hash), token, later, sha256)
  {
  }

  /** One day in milliseconds. */
  const DayMs := 86_400_000

  /** The deletion filter: `isVerified` present and false, and created
      strictly more than a day ago. */
  predicate Stale(u: UserRecord, now: int) {
    u.isVerified == Some(false) && u.createdAt < now - DayMs
  }

  /** The users the hourly clean-up keeps. */
  function AfterCleanup(users: map<Id, UserRecord>, now: int): (r: map<Id, UserRecord>)
    ensures forall id :: id in r <==> id in users && !Stale(users[id], now)
    ensures forall id :: id in r ==> r[id] == users[id]
    ensures forall id :: id in users && users[id].isVerified != Some(false) ==> id in r
    ensures forall id :: id in users && users[id].createdAt >= now - DayMs ==> id in r
  {
    map id | id in users && !Stale(users[id], now) :: users[id]
  }

  /** Running the clean-up again at the same time removes nothing more,
      and it never breaks e-mail uniqueness. */
  lemma CleanupIdempotent(users: map<Id, UserRecord>, now: int)
    ensures AfterCleanup(AfterCleanup(users, now), now) == AfterCleanup(users, now)
    ensures UniqueEmails(users) ==> UniqueEmails(AfterCleanup(users, now))
  {
  }

  /** `cleanupUnverifiedUsers`: `deleteMany` with the filter. */
  method Cleanup(db: Database, now: int)
    requires db.Valid()
    modifies db
    ensures db.Valid()
    ensures db.users == AfterCleanup(old(db.users), now)
    ensures db.conversations == old(db.conversations) && db.messages == old(db.messages)
    ensures db.requests == old(db.requests) && db.projects == old(db.projects)
  {
    CleanupIdempotent(db.users, now);
    db.users := AfterCleanup(db.users, now);
  }
}

/**
 * Request sequences against the mock backend, each run on one `Db` in
 * order, with the outcome of the whole sequence stated.
 */
module Scenarios {
  import opened Wrappers
  import opened JsArrays
  import opened Store
  import AuthRoutes

  /**
   * A user who has just registered can log in with the same password,
   * provided bcrypt's `compare` accepts the password against the hash it
   * produced for it.
   */
  method RegisterThenLogin(db: Db, email: string, password: string, name: string,
                           hashed: string, id: string, compare: (string, string) -> bool, t1: int, t2: int)
    returns (registered: Reply, loggedIn: Reply)
    requires email != "" && password != "" && name != ""
    requires forall i :: 0 <= i < |db.users| ==> db.users[i].email != email
    requires compare(password, hashed)
    modifies db
    ensures registered.status == 201
    ensures loggedIn.status == 200 && loggedIn.body.OneUser? && loggedIn.body.user.id == id
    ensures loggedIn.cookies == IssueTokens(id, t2)
  {
    registered := AuthRoutes.Register(db, Some(email), Some(password), Some(name), hashed, id, t1);
    var u := AuthRoutes.RegisteredUser(id, email, hashed, name, t1);
    assert db.users == old(db.users) + [u];
    var k := FindIndex(db.users, HasEmail(email));
    assert HasEmail(email)(db.users[|db.users| - 1]);
    assert k == Some(|db.users| - 1);
    loggedIn := AuthRoutes.Login(db, Some(email), Some(password), compare, t2);
  }

  /**
   * The whole password reset: a code is issued for a known email, checked
   * within its ten minutes, and the reset token it yields sets the new
   * password once; the same token is refused the second time.
   *
   * `OneOtpPerEmail` is the invariant every handler keeps on the OTPs table.
   */
  method PasswordReset(db: Db, email: string, draw: nat, token: string, newPassword: string, hashed: string,
                       t1: int, t2: int, t3: int, t4: int)
    returns (requested: Reply, verified: Reply, reset: Reply, reused: Reply)
    requires draw < 900000 && email != "" && token != "" && newPassword != ""
    requires exists i :: 0 <= i < |db.users| && db.users[i].email == email
    requires OneOtpPerEmail(db.otps)
    requires t2 <= t1 + AuthRoutes.OtpLifetime && t3 <= t1 + AuthRoutes.OtpLifetime
    modifies db
    ensures requested == Plain(200, AuthRoutes.ForgotPasswordMessage)
    ensures verified == Reply(200, "OTP verified successfully", WithResetToken(token), NoCookies)
    ensures reset == Plain(200, "Password reset successful")
    ensures reused == Plain(400, "Invalid reset token")
    ensures db.users == AuthRoutes.SetPassword(old(db.users), email, hashed)
    ensures forall i :: 0 <= i < |db.otps| ==> db.otps[i].email != email
  {
    var otp := AuthRoutes.GenerateOtp(draw);  // the code sent to the user
    var issued := AuthRoutes.NewOtpRecord(email, draw, t1);
    requested := AuthRoutes.ForgotPassword(db, Some(email), draw, t1);
    assert db.otps == AuthRoutes.Reissue(old(db.otps), issued);
    var issuedOtps := db.otps;
    var last := |issuedOtps| - 1;
    assert issuedOtps[last] == issued;
    assert OtpMatches(email, otp)(issuedOtps[last]);
    var k := FindIndex(issuedOtps, OtpMatches(email, otp));
    assert k.Some? && issuedOtps[k.value].email == email;
    assert k.value == last;
    verified := AuthRoutes.VerifyOtp(db, Some(email), Some(otp), token, t2);
    AuthRoutes.VerifiedTokenOpensReset(issuedOtps, email, otp, token);
    reset, reused := ResetThenReuse(db, email, token, newPassword, hashed, t3, t4);
  }

  /**
   * The last two steps of the reset: a token that opens an unexpired record
   * sets the new password, and the same token is then refused.
   */
  method ResetThenReuse(db: Db, email: string, token: string, newPassword: string, hashed: string,
                        t3: int, t4: int)
    returns (reset: Reply, reused: Reply)
    requires email != "" && token != "" && newPassword != ""
    requires var k := FindIndex(db.otps, ResetMatches(email, token));
      k.Some? && t3 <= db.otps[k.value].expiresAt
    modifies db
    ensures reset == Plain(200, "Password reset successful")
    ensures reused == Plain(400, "Invalid reset token")
    ensures db.users == AuthRoutes.SetPassword(old(db.users), email, hashed)
    ensures forall i :: 0 <= i < |db.otps| ==> db.otps[i].email != email
  {
    reset := AuthRoutes.ResetPassword(db, Some(email), Some(token), Some(newPassword), hashed, t3);
    AuthRoutes.ResetTokenSingleUse(old(db.otps), email, token);
    reused := AuthRoutes.ResetPassword(db, Some(email), Some(token), Some(newPassword), hashed, t4);
  }
}

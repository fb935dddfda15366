/**
 * The `/api/auth` route handlers of the mock backend. Each handler is one
 * sequential transition over the two tables held by a `Db`.
 *
 * What the handlers obtain from outside is passed in:
 *  - `now`: the clock (`Date.now()`), in milliseconds;
 *  - `hashed`: what `bcrypt.hash` produced for the submitted password;
 *  - `compare`: `bcrypt.compare(plain, hash)`;
 *  - `decoded`: the user id the JWT verifier yields for the presented
 *    cookie, None when verification fails;
 *  - `id`, `draw`, `resetToken`: the generated user id, the random draw
 *    behind the OTP, and the generated reset token.
 */
module AuthRoutes {
  import opened Wrappers
  import opened JsArrays
  import opened JsStrings
  import opened Store

  /** An OTP stays valid for ten minutes. */
  const OtpLifetime: int := 10 * 60 * 1000

  /** The forgot-password reply, the same whether or not the email is known. */
  const ForgotPasswordMessage: string := "If the email exists, an OTP has been sent"

  /**
   * `generateOTP`: `Math.floor(100000 + Math.random() * 900000)` rendered in
   * decimal, with `draw` standing for the integer part of `Math.random() * 900000`.
   */
  function GenerateOtp(draw: nat): (otp: string)
    requires draw < 900000
    ensures |otp| == 6
    ensures forall i :: 0 <= i < |otp| ==> IsDigit(otp[i])
    ensures otp[0] != '0'
  {
    assert Pow10(5) == 100000 && Pow10(6) == 1000000;
    DecimalStringLength(100000 + draw, 5);
    LeadingDigitNonZero(100000 + draw);
    DecimalString(100000 + draw)
  }

  lemma {:induction false} LeadingDigitNonZero(n: nat)
    requires n > 0
    ensures DecimalString(n)[0] != '0'
  {
    if n >= 10 {
      LeadingDigitNonZero(n / 10);
    }
  }

  // ----- Login, register, logout, refresh, current user -----

  method Login(db: Db, email: Option<string>, password: Option<string>,
               compare: (string, string) -> bool, now: int)
    returns (r: Reply)
    ensures r.status == 200 || r.status == 400 || r.status == 401
    ensures r.status == 400 <==> !Truthy(email) || !Truthy(password)
    ensures r.status == 400 ==> r == Plain(400, "Email and password are required")
    ensures r.status == 401 ==> r == Plain(401, "Invalid credentials")
    ensures r.status == 200 <==>
      Truthy(email) && Truthy(password) &&
      var k := FindIndex(db.users, HasEmail(email.value));
      k.Some? && compare(password.value, db.users[k.value].password)
    ensures r.status == 200 ==>
      var k := FindIndex(db.users, HasEmail(email.value));
      k.Some? && db.users[k.value].email == email.value &&
      r == Reply(200, "Login successful", OneUser(Strip(db.users[k.value])), IssueTokens(db.users[k.value].id, now))
  {
    if !Truthy(email) || !Truthy(password) {
      return Plain(400, "Email and password are required");
    }
    var k := FindIndex(db.users, HasEmail(email.value));
    if k.None? {
      return Plain(401, "Invalid credentials");
    }
    var user := db.users[k.value];
    if !compare(password.value, user.password) {
      return Plain(401, "Invalid credentials");
    }
    r := Reply(200, "Login successful", OneUser(Strip(user)), IssueTokens(user.id, now));
  }

  /** The record register appends: no `role` field, the hash in place of the password. */
  function RegisteredUser(id: string, email: string, hashed: string, name: string, now: int): User {
    User(id, email, hashed, name, None, now)
  }

  method Register(db: Db, email: Option<string>, password: Option<string>, name: Option<string>,
                  hashed: string, id: string, now: int)
    returns (r: Reply)
    modifies db
    ensures db.otps == old(db.otps)
    ensures r.status == 201 || r.status == 400 || r.status == 409
    ensures r.status == 400 <==> !Truthy(email) || !Truthy(password) || !Truthy(name)
    ensures r.status == 400 ==>
      r == Plain(400, "Email, password, and name are required") && db.users == old(db.users)
    ensures r.status == 409 <==>
      Truthy(email) && Truthy(password) && Truthy(name) &&
      exists i :: 0 <= i < |old(db.users)| && old(db.users)[i].email == email.value
    ensures r.status == 409 ==> r == Plain(409, "Email already exists") && db.users == old(db.users)
    ensures r.status == 201 ==>
      Truthy(email) && Truthy(name) &&
      var u := RegisteredUser(id, email.value, hashed, name.value, now);
      db.users == old(db.users) + [u] &&
      r == Reply(201, "Registration successful", OneUser(Strip(u)), IssueTokens(id, now))
    ensures UniqueEmails(old(db.users)) ==> UniqueEmails(db.users)
  {
    if !Truthy(email) || !Truthy(password) || !Truthy(name) {
      return Plain(400, "Email, password, and name are required");
    }
    if FindIndex(db.users, HasEmail(email.value)).Some? {
      return Plain(409, "Email already exists");
    }
    var u := RegisteredUser(id, email.value, hashed, name.value, now);
    db.users := db.users + [u];
    r := Reply(201, "Registration successful", OneUser(Strip(u)), IssueTokens(id, now));
  }

  /** Logout clears both cookies whatever the request carries. */
  method Logout() returns (r: Reply)
    ensures r.status == 200 && r.cookies == ClearTokens && r.body == Empty
  {
    r := Reply(200, "Logout successful", Empty, ClearTokens);
  }

  method Refresh(db: Db, refreshCookie: Option<string>, decoded: Option<string>, now: int)
    returns (r: Reply)
    ensures r.status == 200 || r.status == 401
    ensures !Truthy(refreshCookie) ==> r == Plain(401, "Refresh token required")
    ensures Truthy(refreshCookie) && decoded.None? ==> r == Plain(401, "Invalid refresh token")
    ensures r.status == 200 <==>
      Truthy(refreshCookie) && decoded.Some? &&
      exists i :: 0 <= i < |db.users| && db.users[i].id == decoded.value
    ensures r.status == 401 && Truthy(refreshCookie) && decoded.Some? ==> r == Plain(401, "User not found")
    ensures r.status == 200 ==>
      decoded.Some? && r == Reply(200, "Token refreshed successfully", Empty, IssueTokens(decoded.value, now))
  {
    if !Truthy(refreshCookie) {
      return Plain(401, "Refresh token required");
    }
    if decoded.None? {
      return Plain(401, "Invalid refresh token");
    }
    var k := FindIndex(db.users, HasId(decoded.value));
    if k.None? {
      return Plain(401, "User not found");
    }
    var user := db.users[k.value];
    r := Reply(200, "Token refreshed successfully", Empty, IssueTokens(user.id, now));
  }

  /** GET /me, reached only after `authenticate` has set `userId`. */
  method Me(db: Db, userId: string) returns (r: Reply)
    ensures r.status == 200 || r.status == 404
    ensures r.status == 404 <==> forall i :: 0 <= i < |db.users| ==> db.users[i].id != userId
    ensures r.status == 404 ==> r == Plain(404, "User not found")
    ensures r.status == 200 ==>
      var k := FindIndex(db.users, HasId(userId));
      k.Some? && db.users[k.value].id == userId &&
      r == Reply(200, "", OneUser(Strip(db.users[k.value])), NoCookies)
  {
    var k := FindIndex(db.users, HasId(userId));
    if k.None? {
      return Plain(404, "User not found");
    }
    r := Reply(200, "", OneUser(Strip(db.users[k.value])), NoCookies);
  }

  // ----- Password reset: forgot-password, verify-otp, reset-password -----

  /** Lines 212-215: drop every OTP record for the email, then append the new one. */
  function Reissue(otps: seq<OtpRecord>, issued: OtpRecord): seq<OtpRecord> {
    Filter(otps, NotOtpFor(issued.email)) + [issued]
  }

  /** The record forgot-password appends: not yet verified, no reset token. */
  function NewOtpRecord(email: string, draw: nat, now: int): (o: OtpRecord)
    requires draw < 900000
    ensures o.expiresAt == o.createdAt + OtpLifetime
  {
    OtpRecord(email, GenerateOtp(draw), now, now + OtpLifetime, None, false)
  }

  method ForgotPassword(db: Db, email: Option<string>, draw: nat, now: int)
    returns (r: Reply)
    requires draw < 900000
    modifies db
    ensures db.users == old(db.users)
    ensures !Truthy(email) ==> r == Plain(400, "Email is required") && db.otps == old(db.otps)
    ensures Truthy(email) ==> r == Plain(200, ForgotPasswordMessage)
    ensures Truthy(email) && (forall i :: 0 <= i < |db.users| ==> db.users[i].email != email.value) ==>
      db.otps == old(db.otps)
    ensures Truthy(email) && (exists i :: 0 <= i < |db.users| && db.users[i].email == email.value) ==>
      db.otps == Reissue(old(db.otps), NewOtpRecord(email.value, draw, now))
    ensures OneOtpPerEmail(old(db.otps)) ==> OneOtpPerEmail(db.otps)
  {
    if !Truthy(email) {
      return Plain(400, "Email is required");
    }
    if FindIndex(db.users, HasEmail(email.value)).None? {
      return Plain(200, ForgotPasswordMessage);
    }
    if OneOtpPerEmail(db.otps) {
      ReissueKeepsOnePerEmail(db.otps, NewOtpRecord(email.value, draw, now));
    }
    db.otps := Reissue(db.otps, NewOtpRecord(email.value, draw, now));
    r := Plain(200, ForgotPasswordMessage);
  }

  /** Lines 261-263: every record of the email is marked verified and given the token. */
  function MarkVerified(otps: seq<OtpRecord>, email: string, resetToken: string): seq<OtpRecord> {
    Map(otps, VerifyIfFor(email, resetToken))
  }

  function VerifyIfFor(email: string, resetToken: string): OtpRecord -> OtpRecord {
    (o: OtpRecord) => if o.email == email then o.(resetToken := Some(resetToken), verified := true) else o
  }

  method VerifyOtp(db: Db, email: Option<string>, otp: Option<string>, resetToken: string, now: int)
    returns (r: Reply)
    modifies db
    ensures db.users == old(db.users)
    ensures r.status == 200 || r.status == 400
    ensures r.status == 400 ==> db.otps == old(db.otps) && r.body == Empty
    ensures !Truthy(email) || !Truthy(otp) ==> r == Plain(400, "Email and OTP are required")
    ensures Truthy(email) && Truthy(otp) ==>
      var k := FindIndex(old(db.otps), OtpMatches(email.value, otp.value));
      && (k.None? ==> r == Plain(400, "Invalid OTP"))
      && (k.Some? && old(db.otps)[k.value].expiresAt < now ==> r == Plain(400, "OTP has expired"))
      && (r.status == 200 <==> k.Some? && !(old(db.otps)[k.value].expiresAt < now))
    ensures r.status == 200 ==>
      Truthy(email) &&
      db.otps == MarkVerified(old(db.otps), email.value, resetToken) &&
      r == Reply(200, "OTP verified successfully", WithResetToken(resetToken), NoCookies)
    ensures OneOtpPerEmail(old(db.otps)) ==> OneOtpPerEmail(db.otps)
  {
    if !Truthy(email) || !Truthy(otp) {
      return Plain(400, "Email and OTP are required");
    }
    var k := FindIndex(db.otps, OtpMatches(email.value, otp.value));
    if k.None? {
      return Plain(400, "Invalid OTP");
    }
    if db.otps[k.value].expiresAt < now {
      return Plain(400, "OTP has expired");
    }
    MarkVerifiedKeepsEmails(db.otps, email.value, resetToken);
    db.otps := MarkVerified(db.otps, email.value, resetToken);
    r := Reply(200, "OTP verified successfully", WithResetToken(resetToken), NoCookies);
  }

  /** Lines 307-309: every user with the email gets the new hash. */
  function SetPassword(users: seq<User>, email: string, hashed: string): seq<User> {
    Map(users, RehashIfFor(email, hashed))
  }

  function RehashIfFor(email: string, hashed: string): User -> User {
    (u: User) => if u.email == email then u.(password := hashed) else u
  }

  method ResetPassword(db: Db, email: Option<string>, resetToken: Option<string>,
                       newPassword: Option<string>, hashed: string, now: int)
    returns (r: Reply)
    modifies db
    ensures r.status == 200 || r.status == 400
    ensures r.status == 400 ==> db.users == old(db.users) && db.otps == old(db.otps)
    ensures !Truthy(email) || !Truthy(resetToken) || !Truthy(newPassword) ==>
      r == Plain(400, "Email, reset token, and new password are required")
    ensures Truthy(email) && Truthy(resetToken) && Truthy(newPassword) ==>
      var k := FindIndex(old(db.otps), ResetMatches(email.value, resetToken.value));
      && (k.None? ==> r == Plain(400, "Invalid reset token"))
      && (k.Some? && old(db.otps)[k.value].expiresAt < now ==> r == Plain(400, "Reset token has expired"))
      && (r.status == 200 <==> k.Some? && !(old(db.otps)[k.value].expiresAt < now))
    ensures r.status == 200 ==>
      Truthy(email) &&
      r == Plain(200, "Password reset successful") &&
      db.users == SetPassword(old(db.users), email.value, hashed) &&
      db.otps == Filter(old(db.otps), NotOtpFor(email.value))
    ensures r.status == 200 ==> forall i :: 0 <= i < |db.otps| ==> db.otps[i].email != email.value
    ensures OneOtpPerEmail(old(db.otps)) ==> OneOtpPerEmail(db.otps)
    ensures UniqueEmails(old(db.users)) ==> UniqueEmails(db.users)
  {
    if !Truthy(email) || !Truthy(resetToken) || !Truthy(newPassword) {
      return Plain(400, "Email, reset token, and new password are required");
    }
    var k := FindIndex(db.otps, ResetMatches(email.value, resetToken.value));
    if k.None? {
      return Plain(400, "Invalid reset token");
    }
    if db.otps[k.value].expiresAt < now {
      return Plain(400, "Reset token has expired");
    }
    SetPasswordTouchesOnlyEmail(db.users, email.value, hashed);
    if OneOtpPerEmail(db.otps) {
      OneOtpPerEmailIsDistinct(db.otps);
      FilterKeepsDistinct(db.otps, NotOtpFor(email.value), OtpEmail);
      OneOtpPerEmailIsDistinct(Filter(db.otps, NotOtpFor(email.value)));
    }
    db.users := SetPassword(db.users, email.value, hashed);
    db.otps := Filter(db.otps, NotOtpFor(email.value));
    r := Plain(200, "Password reset successful");
  }

  // ----- Properties of the table transitions -----

  /** After forgot-password the email has exactly one OTP record: the new one. */
  lemma ReissueLeavesOneRecord(otps: seq<OtpRecord>, issued: OtpRecord)
    ensures Filter(Reissue(otps, issued), OtpFor(issued.email)) == [issued]
  {
    var kept := Filter(otps, NotOtpFor(issued.email));
    FilterAppend(kept, [issued], OtpFor(issued.email));
    FilterNone(kept, OtpFor(issued.email));
    assert Filter([issued], OtpFor(issued.email)) == [issued] + Filter([issued][1..], OtpFor(issued.email));
  }

  /** Forgot-password leaves the records of every other email exactly as they were. */
  lemma ReissueKeepsOthers(otps: seq<OtpRecord>, issued: OtpRecord, other: string)
    requires other != issued.email
    ensures Filter(Reissue(otps, issued), OtpFor(other)) == Filter(otps, OtpFor(other))
  {
    var kept := Filter(otps, NotOtpFor(issued.email));
    FilterAppend(kept, [issued], OtpFor(other));
    assert Filter([issued], OtpFor(other)) == [] + Filter([issued][1..], OtpFor(other));
    FilterFilter(otps, NotOtpFor(issued.email), OtpFor(other));
  }

  function OtpEmail(o: OtpRecord): string {
    o.email
  }

  /** "At most one OTP record per email" is distinctness by `OtpEmail`. */
  lemma OneOtpPerEmailIsDistinct(otps: seq<OtpRecord>)
    ensures OneOtpPerEmail(otps) <==> DistinctBy(otps, OtpEmail)
  {
  }

  /** Forgot-password keeps "at most one OTP record per email". */
  lemma ReissueKeepsOnePerEmail(otps: seq<OtpRecord>, issued: OtpRecord)
    requires OneOtpPerEmail(otps)
    ensures OneOtpPerEmail(Reissue(otps, issued))
  {
    OneOtpPerEmailIsDistinct(otps);
    var kept := Filter(otps, NotOtpFor(issued.email));
    FilterKeepsDistinct(otps, NotOtpFor(issued.email), OtpEmail);
    var r := kept + [issued];
    forall i, j | 0 <= i < j < |r| ensures r[i].email != r[j].email {
      if j == |kept| {
        assert r[i] == kept[i];
        assert NotOtpFor(issued.email)(kept[i]);
      } else {
        assert r[i] == kept[i] && r[j] == kept[j];
        assert OtpEmail(kept[i]) != OtpEmail(kept[j]);
      }
    }
  }

  /** Verify-otp rewrites records in place: positions and emails are kept. */
  lemma MarkVerifiedKeepsEmails(otps: seq<OtpRecord>, email: string, resetToken: string)
    ensures |MarkVerified(otps, email, resetToken)| == |otps|
    ensures forall i :: 0 <= i < |otps| ==> MarkVerified(otps, email, resetToken)[i].email == otps[i].email
    ensures OneOtpPerEmail(otps) ==> OneOtpPerEmail(MarkVerified(otps, email, resetToken))
  {
    var m := MarkVerified(otps, email, resetToken);
    forall i | 0 <= i < |otps| ensures m[i].email == otps[i].email {
      assert m[i] == VerifyIfFor(email, resetToken)(otps[i]);
    }
  }

  /**
   * A reset token issued by verify-otp is accepted by reset-password: the
   * record it is looked up by is the very record whose code was checked, so
   * it expires at the same instant.
   */
  lemma VerifiedTokenOpensReset(otps: seq<OtpRecord>, email: string, otp: string, resetToken: string)
    requires OneOtpPerEmail(otps)
    requires FindIndex(otps, OtpMatches(email, otp)).Some?
    ensures
      var k := FindIndex(otps, OtpMatches(email, otp)).value;
      var m := MarkVerified(otps, email, resetToken);
      FindIndex(m, ResetMatches(email, resetToken)) == Some(k) &&
      m[k].expiresAt == otps[k].expiresAt
  {
    var k := FindIndex(otps, OtpMatches(email, otp)).value;
    var m := MarkVerified(otps, email, resetToken);
    MarkVerifiedKeepsEmails(otps, email, resetToken);
    assert m[k] == VerifyIfFor(email, resetToken)(otps[k]);
    assert ResetMatches(email, resetToken)(m[k]);
    forall j | 0 <= j < k ensures !ResetMatches(email, resetToken)(m[j]) {
      assert otps[j].email != otps[k].email;
    }
  }

  /** Once a reset has succeeded, no record can accept any reset token for that email again. */
  lemma ResetTokenSingleUse(otps: seq<OtpRecord>, email: string, resetToken: string)
    ensures FindIndex(Filter(otps, NotOtpFor(email)), ResetMatches(email, resetToken)).None?
  {
    var left := Filter(otps, NotOtpFor(email));
    forall j | 0 <= j < |left| ensures !ResetMatches(email, resetToken)(left[j]) {
      assert NotOtpFor(email)(left[j]);
    }
  }

  /** Reset-password changes the hash of the users with that email and nothing else. */
  lemma SetPasswordTouchesOnlyEmail(users: seq<User>, email: string, hashed: string)
    ensures |SetPassword(users, email, hashed)| == |users|
    ensures forall i :: 0 <= i < |users| ==>
      SetPassword(users, email, hashed)[i] ==
        if users[i].email == email then users[i].(password := hashed) else users[i]
  {
    var s := SetPassword(users, email, hashed);
    forall i | 0 <= i < |users|
      ensures s[i] == if users[i].email == email then users[i].(password := hashed) else users[i]
    {
      assert s[i] == RehashIfFor(email, hashed)(users[i]);
    }
  }
}

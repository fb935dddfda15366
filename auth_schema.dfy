/**
 * The Zod schemas of the authentication forms. Each schema reads the form's
 * string fields and either accepts them, with the email lowercased, or
 * reports every failed check as an issue on its field.
 *
 * `isEmail` stands for the `.email()` check of the Zod version in use.
 */
module AuthSchema {
  import opened JsStrings
  import opened Validation
  import AuthRoutes

  datatype LoginData = LoginData(email: string, password: string)
  datatype RegisterData = RegisterData(name: string, email: string, password: string, confirmPassword: string)
  datatype EmailData = EmailData(email: string)
  datatype OtpData = OtpData(otp: string)
  datatype ResetData = ResetData(password: string, confirmPassword: string)

  // ----- Field checks, in the order the schemas declare them -----

  /** `.min(1, REQUIRED).email(INVALID)` on `email`. */
  function EmailIssues(isEmail: string -> bool, email: string): (issues: seq<Issue>)
    ensures Issue("email", EmailRequired) in issues <==> email == ""
    ensures Issue("email", EmailInvalid) in issues <==> !isEmail(email)
    ensures issues == [] <==> email != "" && isEmail(email)
    ensures forall x :: x in issues ==> x.path == "email"
  {
    Check(|email| >= 1, "email", EmailRequired) + Check(isEmail(email), "email", EmailInvalid)
  }

  /** `.min(1, REQUIRED).min(2).max(100).regex(PATTERN)` on `name`. */
  function NameIssues(name: string): (issues: seq<Issue>)
    ensures Issue("name", NameRequired) in issues <==> name == ""
    ensures Issue("name", NameTooShort) in issues <==> |name| < NameMinLength
    ensures Issue("name", NameTooLong) in issues <==> |name| > NameMaxLength
    ensures Issue("name", NameBadCharacters) in issues <==> !MatchesNamePattern(name)
    ensures issues == [] <==> NameMinLength <= |name| <= NameMaxLength && MatchesNamePattern(name)
    ensures forall x :: x in issues ==> x.path == "name"
  {
    Check(|name| >= 1, "name", NameRequired) + Check(|name| >= NameMinLength, "name", NameTooShort) +
    Check(|name| <= NameMaxLength, "name", NameTooLong) + Check(MatchesNamePattern(name), "name", NameBadCharacters)
  }

  /** `.min(1, REQUIRED).min(6).max(128)` on a new password. */
  function NewPasswordIssues(password: string): (issues: seq<Issue>)
    ensures Issue("password", PasswordRequired) in issues <==> password == ""
    ensures Issue("password", PasswordTooShort) in issues <==> |password| < PasswordMinLength
    ensures Issue("password", PasswordTooLong) in issues <==> |password| > PasswordMaxLength
    ensures issues == [] <==> PasswordMinLength <= |password| <= PasswordMaxLength
    ensures forall x :: x in issues ==> x.path == "password"
  {
    Check(|password| >= 1, "password", PasswordRequired) +
    Check(|password| >= PasswordMinLength, "password", PasswordTooShort) +
    Check(|password| <= PasswordMaxLength, "password", PasswordTooLong)
  }

  const ConfirmRequired: string := "Please confirm your password"

  /**
   * The refinement of the register and reset forms. Zod runs it after the
   * field checks whenever they did not abort, which string checks never do,
   * so a mismatch is reported on `confirmPassword` after any field issues.
   */
  function Confirmed<T>(fieldIssues: seq<Issue>, password: string, confirmPassword: string, data: T): (r: Parsed<T>)
    ensures r.Valid? <==> fieldIssues == [] && password == confirmPassword
    ensures r.Valid? ==> r.data == data
    ensures r.Invalid? ==> |fieldIssues| <= |r.issues| <= |fieldIssues| + 1 && r.issues[..|fieldIssues|] == fieldIssues
    ensures r.Invalid? ==>
      (|r.issues| == |fieldIssues| + 1 <==> password != confirmPassword) &&
      (password != confirmPassword ==> r.issues[|fieldIssues|] == Issue("confirmPassword", PasswordMismatch))
  {
    var issues := fieldIssues + Check(password == confirmPassword, "confirmPassword", PasswordMismatch);
    if issues == [] then Valid(data) else Invalid(issues)
  }

  // ----- The schemas -----

  /** `loginSchema`: any non-empty password, a non-empty valid email. */
  function LoginSchema(isEmail: string -> bool, email: string, password: string): (r: Parsed<LoginData>)
    ensures r.Valid? <==> email != "" && isEmail(email) && password != ""
    ensures r.Valid? ==> r.data.email == ToLower(email) && r.data.password == password
    ensures r.Invalid? ==> forall i :: 0 <= i < |r.issues| ==> r.issues[i].path in {"email", "password"}
  {
    var issues := EmailIssues(isEmail, email) + Check(|password| >= 1, "password", PasswordRequired);
    if issues == [] then Valid(LoginData(ToLower(email), password)) else Invalid(issues)
  }

  /** `registerSchema`: name, email and password rules, then the two passwords must agree. */
  function RegisterSchema(isEmail: string -> bool, name: string, email: string, password: string, confirmPassword: string)
    : (r: Parsed<RegisterData>)
    ensures r.Valid? <==>
      NameMinLength <= |name| <= NameMaxLength && MatchesNamePattern(name) &&
      email != "" && isEmail(email) &&
      PasswordMinLength <= |password| <= PasswordMaxLength && password == confirmPassword
    ensures r.Valid? ==> r.data == RegisterData(name, ToLower(email), password, confirmPassword)
    ensures r.Invalid? ==> (Issue("confirmPassword", PasswordMismatch) in r.issues <==> password != confirmPassword)
    ensures r == Invalid([Issue("confirmPassword", PasswordMismatch)]) <==>
      NameIssues(name) == [] && EmailIssues(isEmail, email) == [] && NewPasswordIssues(password) == [] &&
      confirmPassword != "" && password != confirmPassword
  {
    var fieldIssues := NameIssues(name) + EmailIssues(isEmail, email) + NewPasswordIssues(password) +
      Check(|confirmPassword| >= 1, "confirmPassword", ConfirmRequired);
    assert Issue("confirmPassword", PasswordMismatch) !in fieldIssues;
    Confirmed(fieldIssues, password, confirmPassword, RegisterData(name, ToLower(email), password, confirmPassword))
  }

  /** `forgotPasswordSchema`. */
  function ForgotPasswordSchema(isEmail: string -> bool, email: string): (r: Parsed<EmailData>)
    ensures r.Valid? <==> email != "" && isEmail(email)
    ensures r.Valid? ==> r.data.email == ToLower(email)
    ensures r.Invalid? ==> r.issues == EmailIssues(isEmail, email)
  {
    var issues := EmailIssues(isEmail, email);
    if issues == [] then Valid(EmailData(ToLower(email))) else Invalid(issues)
  }

  /** `otpSchema`: exactly six decimal digits; both checks share one message. */
  function OtpSchema(otp: string): (r: Parsed<OtpData>)
    ensures r.Valid? <==> MatchesOtpPattern(otp)
    ensures r.Valid? ==> r.data.otp == otp
    ensures r.Invalid? ==> 1 <= |r.issues| <= 2 && forall i :: 0 <= i < |r.issues| ==> r.issues[i] == Issue("otp", OtpInvalid)
  {
    var issues := Check(|otp| == OtpLength, "otp", OtpInvalid) + Check(MatchesOtpPattern(otp), "otp", OtpInvalid);
    if issues == [] then Valid(OtpData(otp)) else Invalid(issues)
  }

  /** `resetPasswordSchema`: the password rules, then the two passwords must agree. */
  function ResetPasswordSchema(password: string, confirmPassword: string): (r: Parsed<ResetData>)
    ensures r.Valid? <==> PasswordMinLength <= |password| <= PasswordMaxLength && password == confirmPassword
    ensures r.Valid? ==> r.data == ResetData(password, confirmPassword)
    ensures r.Invalid? ==> (Issue("confirmPassword", PasswordMismatch) in r.issues <==> password != confirmPassword)
    ensures r == Invalid([Issue("confirmPassword", PasswordMismatch)]) <==>
      NewPasswordIssues(password) == [] && confirmPassword != "" && password != confirmPassword
  {
    var fieldIssues := NewPasswordIssues(password) + Check(|confirmPassword| >= 1, "confirmPassword", ConfirmRequired);
    assert Issue("confirmPassword", PasswordMismatch) !in fieldIssues;
    Confirmed(fieldIssues, password, confirmPassword, ResetData(password, confirmPassword))
  }

  // ----- Properties -----

  /** An accepted email carries no upper-case ASCII letter, whichever form accepted it. */
  lemma AcceptedEmailIsLowercase(isEmail: string -> bool, email: string, password: string)
    requires LoginSchema(isEmail, email, password).Valid?
    ensures var e := LoginSchema(isEmail, email, password).data.email;
      e == ForgotPasswordSchema(isEmail, email).data.email &&
      ToLower(e) == e &&
      forall i :: 0 <= i < |e| ==> !('A' <= e[i] <= 'Z')
  {
    ToLowerIdempotent(email);
  }

  /**
   * The complexity pattern in the validation constants is not part of any
   * schema: six lower-case letters are an acceptable registration password.
   */
  lemma NoComplexityRule(isEmail: string -> bool, email: string)
    requires email != "" && isEmail(email)
    ensures RegisterSchema(isEmail, "Al", email, "abcdef", "abcdef").Valid?
    ensures ResetPasswordSchema("abcdef", "abcdef").Valid?
  {
    assert MatchesNamePattern("Al") by {
      assert forall i :: 0 <= i < |"Al"| ==> IsAsciiLetter("Al"[i]);
    }
  }

  /** Every code the server's OTP generator can send passes the OTP form. */
  lemma GeneratedOtpPassesOtpForm(draw: nat)
    requires draw < 900000
    ensures OtpSchema(AuthRoutes.GenerateOtp(draw)).Valid?
  {
  }
}

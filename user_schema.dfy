/**
 * The Zod schemas of the user management forms: the shared base (name,
 * email, role), the create form (a required password) and the update form
 * (a password that may be left out or empty), with the transform that drops
 * an empty password before the update is sent.
 */
module UserSchema {
  import opened Wrappers
  import opened Validation
  import Roles

  datatype CreateData = CreateData(name: string, email: string, role: string, password: string)

  datatype UpdateData = UpdateData(
    name: string, email: string, role: string,
    password: Option<string>, changePassword: Option<bool>)

  /** The message `z.enum(['admin', 'user'])` reports for any other value. */
  function RoleEnumMessage(received: string): string {
    "Invalid enum value. Expected 'admin' | 'user', received '" + received + "'"
  }

  /** `role`: one of the two roles, 'user' when the field is absent. */
  function RoleIssues(role: Option<string>): (issues: seq<Issue>)
    ensures issues == [] <==> role.None? || role.value == Roles.Admin || role.value == Roles.UserRole
    ensures issues != [] ==> issues == [Issue("role", RoleEnumMessage(role.value))]
  {
    if role.None? || role.value in {Roles.Admin, Roles.UserRole} then []
    else [Issue("role", RoleEnumMessage(role.value))]
  }

  /** `name`: 2 to 100 characters matching the name pattern. */
  function BaseNameIssues(name: string): (issues: seq<Issue>)
    ensures issues == [] <==> NameMinLength <= |name| <= NameMaxLength && MatchesNamePattern(name)
    ensures Issue("name", NameTooShort) in issues <==> |name| < NameMinLength
    ensures forall x :: x in issues ==> x.path == "name"
  {
    Check(|name| >= NameMinLength, "name", NameTooShort) + Check(|name| <= NameMaxLength, "name", NameTooLong) +
    Check(MatchesNamePattern(name), "name", NameBadCharacters)
  }

  /** `userBaseSchema`'s checks: the name rules, a valid email, the role enum. */
  function BaseIssues(isEmail: string -> bool, name: string, email: string, role: Option<string>): (issues: seq<Issue>)
    ensures issues == [] <==>
      NameMinLength <= |name| <= NameMaxLength && MatchesNamePattern(name) && isEmail(email) &&
      (role.None? || role.value == Roles.Admin || role.value == Roles.UserRole)
    ensures Issue("email", EmailInvalid) in issues <==> !isEmail(email)
    ensures Issue("name", NameTooShort) in issues <==> |name| < NameMinLength
  {
    var nameIssues := BaseNameIssues(name);
    var emailIssues := Check(isEmail(email), "email", EmailInvalid);
    var roleIssues := RoleIssues(role);
    assert Issue("email", EmailInvalid) !in nameIssues && Issue("email", EmailInvalid) !in roleIssues;
    assert Issue("name", NameTooShort) !in emailIssues && Issue("name", NameTooShort) !in roleIssues;
    nameIssues + emailIssues + roleIssues
  }

  /** `createUserSchema`: the base fields and a password of 6 to 128 characters. */
  function CreateUserSchema(isEmail: string -> bool, name: string, email: string, role: Option<string>, password: string)
    : (r: Parsed<CreateData>)
    ensures r.Valid? <==>
      BaseIssues(isEmail, name, email, role) == [] &&
      PasswordMinLength <= |password| <= PasswordMaxLength
    ensures r.Valid? ==>
      r.data.email == ToLower(email) && r.data.name == name && r.data.password == password &&
      r.data.role == (if role.Some? then role.value else Roles.UserRole) &&
      Roles.CanAccessMenu("dashboard", r.data.role)
  {
    var issues := BaseIssues(isEmail, name, email, role) +
      Check(|password| >= PasswordMinLength, "password", PasswordTooShort) +
      Check(|password| <= PasswordMaxLength, "password", PasswordTooLong);
    if issues == [] then Valid(CreateData(name, ToLower(email), role.GetOr(Roles.UserRole), password))
    else Invalid(issues)
  }

  /**
   * The update form's password: `z.string().min(6).max(128).optional()`
   * or `z.literal('')`. A string that fails the first alternative and is not
   * empty reports the first alternative's issues.
   */
  function UpdatePasswordIssues(password: Option<string>): (issues: seq<Issue>)
    ensures issues == [] <==>
      password.None? || password.value == "" || PasswordMinLength <= |password.value| <= PasswordMaxLength
  {
    if password.None? || password.value == "" then []
    else
      Check(|password.value| >= PasswordMinLength, "password", PasswordTooShort) +
      Check(|password.value| <= PasswordMaxLength, "password", PasswordTooLong)
  }

  /** `updateUserSchema`. */
  function UpdateUserSchema(
    isEmail: string -> bool, name: string, email: string, role: Option<string>,
    password: Option<string>, changePassword: Option<bool>): (r: Parsed<UpdateData>)
    ensures r.Valid? <==>
      BaseIssues(isEmail, name, email, role) == [] &&
      (password.None? || password.value == "" || PasswordMinLength <= |password.value| <= PasswordMaxLength)
    ensures r.Valid? ==>
      r.data.email == ToLower(email) && r.data.password == password &&
      r.data.changePassword == changePassword &&
      r.data.role == (if role.Some? then role.value else Roles.UserRole)
  {
    var issues := BaseIssues(isEmail, name, email, role) + UpdatePasswordIssues(password);
    if issues == [] then Valid(UpdateData(name, ToLower(email), role.GetOr(Roles.UserRole), password, changePassword))
    else Invalid(issues)
  }

  /** The transform: an empty password is removed, anything else is kept as it is. */
  function DropEmptyPassword(d: UpdateData): (r: UpdateData)
    ensures r.password == (if d.password == Some("") then None else d.password)
    ensures r.name == d.name && r.email == d.email && r.role == d.role && r.changePassword == d.changePassword
  {
    if d.password == Some("") then d.(password := None) else d
  }

  /**
   * `updateUserSchemaWithTransform`: after the transform a password is either
   * absent or a usable one of 6 to 128 characters, and it is absent exactly
   * when it was left out or empty.
   */
  function UpdateUserSchemaWithTransform(
    isEmail: string -> bool, name: string, email: string, role: Option<string>,
    password: Option<string>, changePassword: Option<bool>): (r: Parsed<UpdateData>)
    ensures r.Valid? == UpdateUserSchema(isEmail, name, email, role, password, changePassword).Valid?
    ensures r.Invalid? ==> r == UpdateUserSchema(isEmail, name, email, role, password, changePassword)
    ensures r.Valid? ==>
      (r.data.password.None? <==> password.None? || password == Some("")) &&
      (r.data.password.Some? ==> r.data.password == password) &&
      (r.data.password.Some? ==> PasswordMinLength <= |r.data.password.value| <= PasswordMaxLength)
  {
    match UpdateUserSchema(isEmail, name, email, role, password, changePassword)
    case Valid(d) => Valid(DropEmptyPassword(d))
    case Invalid(issues) => Invalid(issues)
  }
}

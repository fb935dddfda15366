/**
 * The validation bounds, patterns and messages the form schemas share,
 * and the outcome of parsing a form: the parsed data, or the issues found
 * in declaration order (field by field, check by check).
 */
module Validation {
  import opened JsStrings

  const PasswordMinLength: nat := 6
  const PasswordMaxLength: nat := 128
  const NameMinLength: nat := 2
  const NameMaxLength: nat := 100
  const OtpLength: nat := 6

  const PasswordRequired: string := "Password is required"
  const PasswordTooShort: string := "Password must be at least 6 characters"
  const PasswordTooLong: string := "Password must not exceed 128 characters"
  const PasswordMismatch: string := "Passwords do not match"
  const EmailRequired: string := "Email is required"
  const EmailInvalid: string := "Please enter a valid email address"
  const NameRequired: string := "Name is required"
  const NameTooShort: string := "Name must be at least 2 characters"
  const NameTooLong: string := "Name must not exceed 100 characters"
  const NameBadCharacters: string := "Name can only contain letters, spaces, hyphens and apostrophes"
  const OtpInvalid: string := "OTP must be 6 digits"

  datatype Issue = Issue(path: string, message: string)

  datatype Parsed<T> = Valid(data: T) | Invalid(issues: seq<Issue>)

  /** The issue `cond` stands for when it fails, in a one-element sequence. */
  function Check(cond: bool, path: string, message: string): seq<Issue> {
    if cond then [] else [Issue(path, message)]
  }

  predicate IsAsciiLetter(c: char) {
    'a' <= c <= 'z' || 'A' <= c <= 'Z'
  }

  /** The characters `\s` matches in a JavaScript regular expression. */
  predicate IsJsWhitespace(c: char) {
    c == ' ' || c == '\t' || c == '\n' || c == '\r' || c == '\U{000B}' || c == '\U{000C}' ||
    c == '\U{00A0}' || c == '\U{1680}' || ('\U{2000}' <= c <= '\U{200A}') ||
    c == '\U{2028}' || c == '\U{2029}' || c == '\U{202F}' || c == '\U{205F}' ||
    c == '\U{3000}' || c == '\U{FEFF}'
  }

  /** `/^[a-zA-Z\s'-]+$/`. */
  predicate MatchesNamePattern(s: string) {
    |s| >= 1 &&
    forall i :: 0 <= i < |s| ==> IsAsciiLetter(s[i]) || IsJsWhitespace(s[i]) || s[i] == '\'' || s[i] == '-'
  }

  /** `/^\d{6}$/`. */
  predicate MatchesOtpPattern(s: string) {
    |s| == 6 && forall i :: 0 <= i < |s| ==> IsDigit(s[i])
  }

  function LowerChar(c: char): (d: char)
    ensures !('A' <= d <= 'Z')
  {
    if 'A' <= c <= 'Z' then (c as int + 32) as char else c
  }

  /** `.toLowerCase()` on the ASCII range. */
  function ToLower(s: string): (r: string)
    ensures |r| == |s|
    ensures forall i :: 0 <= i < |s| ==> r[i] == LowerChar(s[i])
  {
    if |s| == 0 then [] else [LowerChar(s[0])] + ToLower(s[1..])
  }

  /** Lowercasing twice is lowercasing once. */
  lemma ToLowerIdempotent(s: string)
    ensures ToLower(ToLower(s)) == ToLower(s)
  {
    var once := ToLower(s);
    assert forall i :: 0 <= i < |s| ==> LowerChar(once[i]) == once[i];
  }
}

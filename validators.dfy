/**
 * The input validators of the registration prompts (src/validators.rs). Each returns
 * `Ok(())` or an error message; the file-system queries `is_dir` and `is_file` are
 * parameters, so the model holds for every state of the file system.
 */
module Validators {
  import opened Paths
  import Decimal
  import Text

  datatype Validation = Accept | Reject(message: string)

  const APP_NAME_DASH := "Invalid app name. Service names must not start with `-`."
  const APP_NAME_CHARS := "Invalid app name. Service names may contain only ascii-alphanumeric characters, '.', and '-'."
  const NOT_A_DIRECTORY := "Invalid path. Must be a directory."
  const NOT_ABSOLUTE := "Invalid path. Must be absolute."
  const NOT_A_FILE := "Invalid path. Must be a file."
  const NOT_A_PORT := "Could not parse into address. Only ports are supported."

  /** `char::is_ascii_alphanumeric`. */
  predicate IsAsciiAlphanumeric(c: char) {
    ('0' <= c <= '9') || ('A' <= c <= 'Z') || ('a' <= c <= 'z')
  }

  /** The characters a name may hold: ASCII letters and digits, `-` and `.`. */
  predicate IsNameChar(c: char) {
    IsAsciiAlphanumeric(c) || c == '-' || c == '.'
  }

  /** `s.chars().all(IsNameChar)`, one character at a time. */
  function AllNameChars(s: string): (b: bool)
    ensures b <==> forall i :: 0 <= i < |s| ==> IsNameChar(s[i])
  {
    s == [] || (IsNameChar(s[0]) && AllNameChars(s[1..]))
  }

  /** `s.starts_with("-")`. */
  predicate StartsWithDash(s: string) {
    |s| > 0 && s[0] == '-'
  }

  /** The names both name validators accept. The empty string is one of them. */
  predicate WellFormedName(s: string) {
    !StartsWithDash(s) && forall i :: 0 <= i < |s| ==> IsNameChar(s[i])
  }

  /** `AppNameValidator::validate`. */
  function ValidateAppName(s: string): (r: Validation)
    ensures r == Accept <==> WellFormedName(s)
    ensures StartsWithDash(s) ==> r == Reject(APP_NAME_DASH)
    ensures !StartsWithDash(s) && !WellFormedName(s) ==> r == Reject(APP_NAME_CHARS)
  {
    if StartsWithDash(s) then Reject(APP_NAME_DASH)
    else if !AllNameChars(s) then Reject(APP_NAME_CHARS)
    else Accept
  }

  /** `LocationValidator::validate`; `parent().unwrap()` panics for a path without a parent. */
  function ValidateLocation(s: string, isDir: PathBuf -> bool): (r: Validation)
    requires Parent(FromStr(s)).Some?
    ensures r == Accept <==> isDir(Parent(FromStr(s)).value) && !IsRelative(FromStr(s))
    ensures !isDir(Parent(FromStr(s)).value) ==> r == Reject(NOT_A_DIRECTORY)
    ensures isDir(Parent(FromStr(s)).value) && IsRelative(FromStr(s)) ==> r == Reject(NOT_ABSOLUTE)
  {
    var path := FromStr(s);
    if !isDir(Parent(path).value) then Reject(NOT_A_DIRECTORY)
    else if IsRelative(path) then Reject(NOT_ABSOLUTE)
    else Accept
  }

  /** `FileValidator::validate`. */
  function ValidateFile(s: string, isFile: string -> bool): (r: Validation)
    ensures r == Accept <==> isFile(s) && !IsRelative(FromStr(s))
    ensures !isFile(s) ==> r == Reject(NOT_A_FILE)
    ensures isFile(s) && IsRelative(FromStr(s)) ==> r == Reject(NOT_ABSOLUTE)
  {
    if !isFile(s) then Reject(NOT_A_FILE)
    else if IsRelative(FromStr(s)) then Reject(NOT_ABSOLUTE)
    else Accept
  }

  /** `AddressValidator::validate`: accepts what `s.parse::<u16>()` accepts. */
  function ValidateAddress(s: string): (r: Validation)
    ensures r == Accept <==> Decimal.ParseU16(s).Some?
    ensures r != Accept ==> r == Reject(NOT_A_PORT)
  {
    if Decimal.ParseU16(s).Some? then Accept else Reject(NOT_A_PORT)
  }

  /** Every port `Display` renders passes the address validator. */
  lemma AddressAcceptsRendered(port: Decimal.u16)
    ensures ValidateAddress(Decimal.Render(port)) == Accept
  {
    Decimal.ParseRender(port);
  }

  /** The address validator rejects the empty string and anything with a sign `-` or a whitespace character. */
  lemma AddressRejects(s: string, i: nat)
    requires i < |s| && (s[i] == '-' || Text.IsWhitespace(s[i]))
    ensures ValidateAddress(s) == Reject(NOT_A_PORT)
    ensures ValidateAddress([]) == Reject(NOT_A_PORT)
  {
    Decimal.ParseU16RejectsNonDigit(s, i);
  }

  /**
   * The location validator's precondition fails exactly for `""` and the rooted strings
   * made of separators and `.` pieces only: `"/"`, `"//"`, `"/."`, …
   */
  lemma LocationPanicsIff(s: string)
    ensures Parent(FromStr(s)).None? <==> s == [] || (s[0] == '/' && AllSkipped(Segments(s)))
  {
    ParentNoneIff(s);
  }

  /** A trailing `.` is no component: for `/x/.` the validator asks whether the root is a directory. */
  lemma LocationTrailingDot(isDir: PathBuf -> bool)
    ensures Parent(FromStr("/x/.")).Some?
    ensures ValidateLocation("/x/.", isDir) == if isDir(FromStr("/")) then Accept else Reject(NOT_A_DIRECTORY)
  {
    DotParents();
  }
}

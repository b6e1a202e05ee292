/** The validators of the stand-alone `dorc` prompt (dorc/src/main.rs). */
module DorcCli {
  import opened Paths
  import opened Validators

  const SERVICE_NAME_DASH := "Invalid service name. Service names must not start with `-`."
  const SERVICE_NAME_CHARS := "Invalid service name. Service names may contain only ascii-alphanumeric characters, '.', and '-'."

  /** `ServiceNameValidator::validate`. */
  function ValidateServiceName(s: string): (r: Validation)
    ensures r == Accept <==> WellFormedName(s)
    ensures StartsWithDash(s) ==> r == Reject(SERVICE_NAME_DASH)
    ensures !StartsWithDash(s) && !WellFormedName(s) ==> r == Reject(SERVICE_NAME_CHARS)
  {
    if StartsWithDash(s) then Reject(SERVICE_NAME_DASH)
    else if !AllNameChars(s) then Reject(SERVICE_NAME_CHARS)
    else Accept
  }

  /** `LocationValidator::validate` of this binary: the directory check comes first. */
  function ValidateServiceLocation(s: string, isDir: PathBuf -> bool): (r: Validation)
    requires Parent(FromStr(s)).Some?
    ensures r == Accept <==> isDir(Parent(FromStr(s)).value) && !IsRelative(FromStr(s))
    ensures !isDir(Parent(FromStr(s)).value) ==> r == Reject(NOT_A_DIRECTORY)
    ensures isDir(Parent(FromStr(s)).value) && IsRelative(FromStr(s)) ==> r == Reject(NOT_ABSOLUTE)
  {
    var path := FromStr(s);
    if !isDir(Parent(path).value) then Reject(NOT_A_DIRECTORY)
    else if IsRelative(path) then Reject(NOT_ABSOLUTE)
    else Accept
  }

  /**
   * The service-name validator and the app-name validator accept the same strings, and
   * reject for the same reason; only the wording of the message differs.
   */
  lemma NameValidatorsAgree(s: string)
    ensures ValidateServiceName(s) == Accept <==> ValidateAppName(s) == Accept
    ensures ValidateServiceName(s) == Reject(SERVICE_NAME_DASH) <==> ValidateAppName(s) == Reject(APP_NAME_DASH)
  {
  }

  /** Both location validators give the same verdict on every path and file system. */
  lemma LocationValidatorsAgree(s: string, isDir: PathBuf -> bool)
    requires Parent(FromStr(s)).Some?
    ensures ValidateServiceLocation(s, isDir) == ValidateLocation(s, isDir)
  {
  }
}

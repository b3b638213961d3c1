/**
 * The option lookups the defaulting step uses. The settings class and the
 * lookup helpers are not part of this model; the keys and defaults below are
 * stand-ins with the meaning the defaulting step gives them.
 */
module Settings {
  import opened Wrappers
  import opened Strings
  import opened Numeric

  const EnableVerbose: string := "RedumperEnableVerbose"
  const EnableVerboseDefault: bool := true
  const EnableDebug: string := "RedumperEnableDebug"
  const EnableDebugDefault: bool := false
  const ReadMethod: string := "RedumperReadMethod"
  const ReadMethodDefault: string := "NONE"
  const SectorOrder: string := "RedumperSectorOrder"
  const SectorOrderDefault: string := "NONE"
  const UseGenericDriveType: string := "RedumperUseGenericDriveType"
  const UseGenericDriveTypeDefault: bool := false
  const RereadCount: string := "RedumperRereadCount"
  const RereadCountDefault: int32 := 20
  const EnableLeadinRetry: string := "RedumperEnableLeadinRetry"
  const EnableLeadinRetryDefault: bool := false
  const LeadinRetryCount: string := "RedumperLeadinRetryCount"
  const LeadinRetryCountDefault: int32 := 4

  /** The options dictionary: a key may be present with no value. */
  type Options = map<string, Option<string>>

  /** The boolean stored under key, or the default when the key is missing or its text is not a boolean. */
  function GetBooleanSetting(options: Options, key: string, default: bool): (r: bool)
    ensures key !in options ==> r == default
    ensures key in options && options[key].Some? && TryParseBool(options[key].value).Some?
            ==> r == TryParseBool(options[key].value).value
  {
    if key in options && options[key].Some? then
      match TryParseBool(options[key].value)
      case Some(b) => b
      case None => default
    else default
  }

  /** The 32-bit integer stored under key, or the default when the key is missing or its text does not parse. */
  function GetInt32Setting(options: Options, key: string, default: int32): (r: int32)
    ensures key !in options ==> r == default
    ensures key in options && options[key].Some? && TryParse(options[key].value, Int32).Some?
            ==> r as int == TryParse(options[key].value, Int32).value
  {
    if key in options && options[key].Some? then
      match TryParse(options[key].value, Int32)
      case Some(n) => n as int32
      case None => default
    else default
  }

  /** The text stored under key (possibly none), or the default when the key is missing. */
  function GetStringSetting(options: Options, key: string, default: string): (r: Option<string>)
    ensures key !in options ==> r == Some(default)
    ensures key in options ==> r == options[key]
  {
    if key in options then options[key] else Some(default)
  }
}

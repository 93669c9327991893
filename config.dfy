/**
 * The persisted configuration record, the environment override and the rule
 * that resolves the personal access token from the two (`AppConfig`,
 * `get_personal_access_token`, and the record rewrites of `auth login` and
 * `auth logout`).
 */
module Config {
  import opened Wrappers
  import opened Text

  /** Rust's `u8`, the type of the record's `version` field. */
  newtype u8 = x: int | 0 <= x < 256

  /** The persisted record: a format version and the stored token. */
  datatype AppConfig = AppConfig(version: u8, personalAccessToken: string)

  /** The record confy hands out when no configuration file exists yet. */
  const DefaultConfig: AppConfig := AppConfig(0, "")

  /**
   * The configuration file as confy finds it: not there yet, there but not
   * readable as a record (loading it panics), or holding a record.
   */
  datatype ConfigFile = Absent | Corrupt | Stored(config: AppConfig)
  {
    /** Loading does not panic. */
    predicate Loadable()
    {
      !Corrupt?
    }
  }

  /** The value of `TXTCV_AUTH_TOKEN` as `std::env::var` reads it: not set, set but not Unicode, or set. */
  datatype EnvVar = Unset | NotUnicode | Present(value: string)

  /** `confy::load`: the stored record, or the default one when there is none. */
  function Load(file: ConfigFile): AppConfig
    requires file.Loadable()
  {
    if file.Stored? then file.config else DefaultConfig
  }

  /**
   * `get_personal_access_token`. An override that `std::env::var` can read
   * wins outright, even when it is empty; otherwise the stored token is
   * returned as it is stored, unless it is blank.
   */
  function ResolveToken(env: EnvVar, file: ConfigFile): (r: Option<string>)
    requires !env.Present? ==> file.Loadable()
    ensures env.Present? ==> r == Some(env.value)
    ensures !env.Present? ==> (r.None? <==> IsBlank(Load(file).personalAccessToken))
    ensures !env.Present? && r.Some? ==> r.value == Load(file).personalAccessToken
  {
    match env
    case Present(value) => Some(value)
    case _ =>
      var config := Load(file);
      if Trim(config.personalAccessToken) == [] then None else Some(config.personalAccessToken)
  }

  /** The record `auth login` writes back: the loaded one with the entered line, trimmed, as token. */
  function LoggedIn(config: AppConfig, line: string): AppConfig
  {
    config.(personalAccessToken := Trim(line))
  }

  /** The record `auth logout` writes back: the loaded one with an empty token. */
  function LoggedOut(config: AppConfig): AppConfig
  {
    config.(personalAccessToken := "")
  }

  /**
   * After a login, with no readable override, resolution gives back the
   * entered line trimmed, or nothing when the line was blank; the version is kept.
   */
  lemma LoginResolves(env: EnvVar, config: AppConfig, line: string)
    requires !env.Present?
    ensures LoggedIn(config, line).version == config.version
    ensures ResolveToken(env, Stored(LoggedIn(config, line)))
         == if IsBlank(line) then None else Some(Trim(line))
  {
  }

  /** After a logout, with no readable override, nothing resolves; the version is kept. */
  lemma LogoutResolvesNone(env: EnvVar, config: AppConfig)
    requires !env.Present?
    ensures LoggedOut(config).version == config.version
    ensures ResolveToken(env, Stored(LoggedOut(config))) == None
  {
  }

  /** Logging out twice stores the same record as logging out once. */
  lemma LogoutIdempotent(config: AppConfig)
    ensures LoggedOut(LoggedOut(config)) == LoggedOut(config)
  {
  }

  /** With no configuration file and no readable override, no token resolves. */
  lemma DefaultResolvesNone(env: EnvVar)
    requires !env.Present?
    ensures Load(Absent) == AppConfig(0, "")
    ensures ResolveToken(env, Absent) == None
  {
  }
}

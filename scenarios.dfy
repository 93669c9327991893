/**
 * Whole command sequences run on a fresh `Shell`, showing what a user of the
 * tool can rely on from the handlers' contracts alone.
 */
module Scenarios {
  import opened Wrappers
  import opened Text
  import opened Config
  import opened Api
  import opened Cli

  /** `init` on a fresh path writes the template; a second `init` then fails and writes nothing. */
  method InitTwice(fs: map<string, File>, template: Json, conforms: Json -> bool, filename: string)
    returns (first: int, second: int, written: File)
    requires filename !in fs
    ensures first == 0 && second == 1 && written == Parsed(template)
  {
    var shell := new Shell(fs, Absent, Unset, template, conforms);
    first := shell.RunInit(filename);
    second := shell.RunInit(filename);
    written := shell.fs[filename];
  }

  /**
   * `auth login` followed by `auth check` with no override: a non-blank line
   * makes the check send one GET carrying the trimmed line; a blank one makes
   * it fail without sending anything.
   */
  method LoginThenCheck(config: ConfigFile, line: string, responseOk: bool)
    returns (code: int, sent: seq<Request>)
    requires config.Loadable()
    ensures sent == if IsBlank(line) then [] else [CheckRequest(Trim(line))]
    ensures code == 0 <==> !IsBlank(line) && responseOk
  {
    var shell := new Shell(map[], config, Unset, Null, _ => true);
    var _ := shell.RunAuthLogin(line, true);
    LoginResolves(Unset, Load(config), line);
    code := shell.RunAuthCheck(responseOk);
    sent := shell.requests;
  }

  /** Entering `tok-123` at the login prompt makes `tok-123` the resolved token. */
  lemma {:induction false} EnteredTokenResolves(config: AppConfig)
    ensures ResolveToken(Unset, Stored(LoggedIn(config, "tok-123\n"))) == Some("tok-123")
  {
    var line := "tok-123\n";
    assert SkipForward(line, 0) == 0;
    assert SkipBackward(line, 0, 8) == SkipBackward(line, 0, 7) == 7;
    assert line[0..7] == "tok-123";
    LoginResolves(Unset, config, line);
  }

  /**
   * `publish` of a valid document with no override and no configuration
   * file fails and sends nothing.
   */
  method PublishWithoutToken(fs: map<string, File>, conforms: Json -> bool, cvId: string, filename: string,
                             responseOk: bool)
    returns (code: int, sent: seq<Request>)
    requires filename in fs && fs[filename].Parsed? && conforms(fs[filename].document)
    ensures code == 1 && sent == []
  {
    var shell := new Shell(fs, Absent, Unset, Null, conforms);
    DefaultResolvesNone(Unset);
    assert shell.IsValidFile(filename) && ResolveToken(shell.env, shell.config) == None;
    code := shell.RunPublish(cvId, filename, responseOk);
    sent := shell.requests;
  }

  /**
   * An override short-circuits the configuration: even with an unreadable
   * configuration file, `publish` of a valid document sends the override's
   * value, empty or not, as the token.
   */
  method PublishWithOverride(fs: map<string, File>, conforms: Json -> bool, cvId: string, filename: string,
                             token: string, responseOk: bool)
    returns (code: int, sent: seq<Request>)
    requires filename in fs && fs[filename].Parsed? && conforms(fs[filename].document)
    ensures sent == [PublishRequest(cvId, token, fs[filename].document)]
    ensures code == 0 <==> responseOk
  {
    var shell := new Shell(fs, Corrupt, Present(token), Null, conforms);
    code := shell.RunPublish(cvId, filename, responseOk);
    sent := shell.requests;
  }

  /**
   * Two successful logouts leave the same configuration as one, with an
   * empty token and the version kept, so nothing resolves afterwards
   * without an override.
   */
  method LogoutTwice(config: ConfigFile, env: EnvVar)
    returns (once: ConfigFile, twice: ConfigFile, token: Option<string>)
    requires config.Loadable()
    ensures once == twice == Stored(AppConfig(Load(config).version, ""))
    ensures !env.Present? ==> token == None
  {
    var shell := new Shell(map[], config, env, Null, _ => true);
    var _ := shell.RunAuthLogout(true);
    once := shell.config;
    LogoutIdempotent(Load(config));
    var _ := shell.RunAuthLogout(true);
    twice := shell.config;
    token := ResolveToken(env, twice);
  }
}

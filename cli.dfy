/**
 * The command handlers of the `txtcv` binary and the dispatch in `main`,
 * as methods of a `Shell` that holds everything the handlers read or change:
 * the files of the working directory, the configuration file, the token
 * environment variable, and the requests handed to ureq so far.
 */
module Cli {
  import opened Wrappers
  import opened Text
  import opened Config
  import opened Api

  /** A file on disk as the handlers read it: valid JSON text, or text that does not parse (reading it panics). */
  datatype File = Parsed(document: Json) | Unparsable

  datatype AuthCommand = Login | Logout | Check

  /** The subcommands, with the arguments clap hands over. */
  datatype Command =
    | Init(filename: string)
    | Validate(filename: string)
    | Auth(auth: AuthCommand)
    | Publish(cvId: string, filename: string)

  class Shell {
    /** The files of the working directory, by path. */
    var fs: map<string, File>
    /** The configuration file confy loads from and stores to. */
    var config: ConfigFile
    /** Every request handed to ureq so far, oldest first. */
    var requests: seq<Request>
    /** `TXTCV_AUTH_TOKEN` in the process environment. */
    const env: EnvVar
    /** The bundled example résumé (`alice.json`) that `init` writes. */
    const template: Json
    /** Conformance to the bundled schema (`jsonschema::validate` against `schema.json`). */
    const conforms: Json -> bool

    constructor (fs: map<string, File>, config: ConfigFile, env: EnvVar, template: Json, conforms: Json -> bool)
      ensures this.fs == fs && this.config == config && this.env == env
      ensures this.template == template && this.conforms == conforms
      ensures requests == []
    {
      this.fs := fs;
      this.config := config;
      this.env := env;
      this.template := template;
      this.conforms := conforms;
      requests := [];
    }

    /** The file at `filename` exists and holds a document that conforms to the schema. */
    predicate IsValidFile(filename: string)
      reads this
    {
      filename in fs && fs[filename].Parsed? && conforms(fs[filename].document)
    }

    /** Reading the file at `filename`, if it exists, does not panic. */
    predicate Readable(filename: string)
      reads this
    {
      filename in fs ==> fs[filename].Parsed?
    }

    /** Resolving the token does not panic: the override is readable or the configuration loads. */
    predicate CanResolve()
      reads this
    {
      !env.Present? ==> config.Loadable()
    }

    /** `run_init`: writes the template to a path that does not exist yet, and never overwrites. */
    method RunInit(filename: string) returns (code: int)
      modifies this`fs
      ensures code == 0 || code == 1
      ensures code == 1 <==> filename in old(fs)
      ensures code == 1 ==> fs == old(fs)
      ensures code == 0 ==> fs == old(fs)[filename := Parsed(template)]
      ensures forall p :: p in old(fs) ==> p in fs && fs[p] == old(fs)[p]
    {
      if filename in fs {
        return 1;
      }
      fs := fs[filename := Parsed(template)];
      return 0;
    }

    /** `run_validate`: succeeds exactly when the file exists and conforms to the schema; changes nothing. */
    method RunValidate(filename: string) returns (code: int)
      requires Readable(filename)
      ensures code == 0 || code == 1
      ensures code == 0 <==> IsValidFile(filename)
    {
      if filename !in fs {
        return 1;
      }
      var document := fs[filename].document;
      if conforms(document) {
        return 0;
      }
      return 1;
    }

    /**
     * `run_auth_login`: loads the record, replaces its token by the entered
     * line trimmed, and stores it. `line` is what `read_line` read from
     * standard input; `stored` says whether `confy::store` succeeded.
     */
    method RunAuthLogin(line: string, stored: bool) returns (code: int)
      requires config.Loadable()
      modifies this`config
      ensures code == 0 || code == 1
      ensures code == 0 <==> stored
      ensures stored ==> config == Stored(LoggedIn(Load(old(config)), line))
      ensures !stored ==> config == old(config)
    {
      var record := LoggedIn(Load(config), line);
      if !stored {
        return 1;
      }
      config := Stored(record);
      return 0;
    }

    /** `run_auth_logout`: loads the record, empties its token, and stores it. */
    method RunAuthLogout(stored: bool) returns (code: int)
      requires config.Loadable()
      modifies this`config
      ensures code == 0 || code == 1
      ensures code == 0 <==> stored
      ensures stored ==> config == Stored(LoggedOut(Load(old(config))))
      ensures !stored ==> config == old(config)
    {
      var record := LoggedOut(Load(config));
      if !stored {
        return 1;
      }
      config := Stored(record);
      return 0;
    }

    /**
     * `run_auth_check`: without a token nothing is sent and the command fails;
     * with one, exactly one GET carrying it is sent and the command succeeds
     * exactly when the service answered successfully (`responseOk`).
     */
    method RunAuthCheck(responseOk: bool) returns (code: int)
      requires CanResolve()
      modifies this`requests
      ensures code == 0 || code == 1
      ensures ResolveToken(env, config).None? ==> code == 1 && requests == old(requests)
      ensures ResolveToken(env, config).Some? ==>
        && requests == old(requests) + [CheckRequest(ResolveToken(env, config).value)]
        && (code == 0 <==> responseOk)
    {
      var token := ResolveToken(env, config);
      if token.None? {
        return 1;
      }
      requests := requests + [CheckRequest(token.value)];
      if responseOk {
        return 0;
      }
      return 1;
    }

    /**
     * `run_publish`: the file must exist, then conform to the schema, then a
     * token must resolve, in that order; only then is exactly one PATCH sent,
     * and the command succeeds exactly when the service answered successfully.
     * The configuration is consulted only once the document has passed
     * validation and no readable override is set.
     */
    method RunPublish(cvId: string, filename: string, responseOk: bool) returns (code: int)
      requires Readable(filename)
      requires IsValidFile(filename) ==> CanResolve()
      modifies this`requests
      ensures code == 0 || code == 1
      ensures requests == old(requests) || |requests| == |old(requests)| + 1
      ensures requests != old(requests) <==> IsValidFile(filename) && ResolveToken(env, config).Some?
      ensures requests != old(requests) ==>
        && requests == old(requests) + [PublishRequest(cvId, ResolveToken(env, config).value, fs[filename].document)]
        && (code == 0 <==> responseOk)
      ensures requests == old(requests) ==> code == 1
    {
      if filename !in fs {
        return 1;
      }
      var document := fs[filename].document;
      if !conforms(document) {
        return 1;
      }
      var token := ResolveToken(env, config);
      if token.None? {
        return 1;
      }
      requests := requests + [PublishRequest(cvId, token.value, document)];
      if responseOk {
        return 0;
      }
      return 1;
    }

    /** What running `command` needs in order not to panic. */
    predicate CanRun(command: Command)
      reads this
    {
      match command
      case Init(_) => true
      case Validate(filename) => Readable(filename)
      case Auth(Check) => CanResolve()
      case Auth(_) => config.Loadable()
      case Publish(_, filename) => Readable(filename) && (IsValidFile(filename) ==> CanResolve())
    }

    /**
     * `main`: runs the subcommand, if there is one, and exits with its code;
     * no subcommand exits with 1. `process::exit` is called only for a
     * non-zero code, so the exit status is `code` in every case. Each
     * subcommand changes only its own part of the state, and its exit code
     * and new state are those its handler promises.
     */
    method Run(command: Option<Command>, line: string, stored: bool, responseOk: bool) returns (code: int)
      requires command.Some? ==> CanRun(command.value)
      modifies this`fs, this`config, this`requests
      ensures code == 0 || code == 1
      ensures command.None? ==> code == 1
      ensures command.None? || command.value.Validate? ==>
        fs == old(fs) && config == old(config) && requests == old(requests)
      ensures command.Some? && command.value.Init? ==> config == old(config) && requests == old(requests)
      ensures command.Some? && command.value.Auth? && !command.value.auth.Check? ==>
        fs == old(fs) && requests == old(requests)
      ensures command.Some? && (command.value.Publish? || command.value == Auth(Check)) ==>
        fs == old(fs) && config == old(config)
      ensures command.Some? && command.value.Init? ==>
        var filename := command.value.filename;
        && (code == 1 <==> filename in old(fs))
        && (code == 1 ==> fs == old(fs))
        && (code == 0 ==> fs == old(fs)[filename := Parsed(template)])
      ensures command.Some? && command.value.Validate? ==>
        (code == 0 <==> IsValidFile(command.value.filename))
      ensures command == Some(Auth(Login)) ==>
        && (code == 0 <==> stored)
        && (stored ==> config == Stored(LoggedIn(Load(old(config)), line)))
        && (!stored ==> config == old(config))
      ensures command == Some(Auth(Logout)) ==>
        && (code == 0 <==> stored)
        && (stored ==> config == Stored(LoggedOut(Load(old(config)))))
        && (!stored ==> config == old(config))
      ensures command == Some(Auth(Check)) ==>
        var token := ResolveToken(env, config);
        && (token.None? ==> code == 1 && requests == old(requests))
        && (token.Some? ==> requests == old(requests) + [CheckRequest(token.value)] && (code == 0 <==> responseOk))
      ensures command.Some? && command.value.Publish? ==>
        var cvId, filename := command.value.cvId, command.value.filename;
        && (requests != old(requests) <==> IsValidFile(filename) && ResolveToken(env, config).Some?)
        && (requests != old(requests) ==>
              && requests == old(requests) + [PublishRequest(cvId, ResolveToken(env, config).value, fs[filename].document)]
              && (code == 0 <==> responseOk))
        && (requests == old(requests) ==> code == 1)
    {
      match command
      case None =>
        code := 1;
      case Some(Init(filename)) =>
        code := RunInit(filename);
      case Some(Validate(filename)) =>
        code := RunValidate(filename);
      case Some(Auth(Login)) =>
        code := RunAuthLogin(line, stored);
      case Some(Auth(Logout)) =>
        code := RunAuthLogout(stored);
      case Some(Auth(Check)) =>
        code := RunAuthCheck(responseOk);
      case Some(Publish(cvId, filename)) =>
        code := RunPublish(cvId, filename, responseOk);
    }
  }
}

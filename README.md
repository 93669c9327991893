# txtcv command-line tool: decision layer

`txtcv` keeps a personal résumé as a JSON document. It validates the document
against a bundled schema and publishes it to the txtcv.com service under a
personal access token. This project models the decisions in `src/main.rs` and
proves properties of them:

- **Token resolution** (`get_personal_access_token`). The `TXTCV_AUTH_TOKEN`
  environment variable wins if `std::env::var` can read it, even when it is
  empty. Otherwise the token comes from the stored configuration record,
  unless that token is blank.
- **The configuration record** (`AppConfig`, with version and token).
  `auth login` and `auth logout` load the record, rewrite only its token and
  store it again.
- **The command handlers** (`init`, `validate`, `auth login|logout|check`,
  `publish`) and the exit-code mapping in `main`. Gating matters most here:
  `publish` sends its request only when the file exists, the document
  conforms to the schema and a token resolves, checked in that order.

Layout:

- `wrappers.dfy`: `Option`.
- `text.dfy`: Rust's `str::trim` over Unicode White_Space.
- `config.dfy`: the record, the configuration file, the environment variable,
  resolution, and the record rewrites of login and logout.
- `api.dfy`: JSON values and the two requests sent to the service.
- `cli.dfy`: class `Shell`, which holds the whole state. That is the files of
  the working directory, the configuration file, the environment variable and
  the log of requests handed to ureq. Its methods are the handlers and the dispatcher.
- `scenarios.dfy`: command sequences on a fresh `Shell`.

External inputs are parameters:

- the line `read_line` takes from standard input;
- whether `confy::store` succeeded;
- whether the service answered successfully;
- schema conformance, an arbitrary predicate `conforms` fixed when the
  `Shell` is built;
- the bundled template, an arbitrary JSON value `template`.

The panics of `unwrap()` become preconditions: loading an unreadable
configuration file, and reading a file that is not valid JSON. Where a panic
can happen only on some paths, the precondition says which. For example,
`RunPublish` needs a loadable configuration only when the document has passed
validation and no readable override is set. That precondition is where the
model says that the token is looked up only after validation.

The stored token is returned as stored: `src/main.rs:296-300` trims it only
to test whether it is blank. Because login stores the line already trimmed,
an untrimmed stored token can reach a request only if it was written to the
configuration file by other means. The override is always sent exactly as set.

## Model

| member | source | states |
|---|---|---|
| Text.Trim | src/main.rs:296 | the result is the slice of the input after its leading whitespace, with non-whitespace at both ends and only whitespace after it; it is empty exactly when the input is blank |
| Config.ResolveToken | src/main.rs:286-303 | a readable override is returned as it is, even when empty, and the configuration is not consulted; otherwise nothing resolves exactly when the stored token is blank, and a resolved token is the stored one, untrimmed |
| Config.DefaultResolvesNone | src/main.rs:87-94 | with no configuration file the record is version 0 with an empty token, so without an override no token resolves |
| Config.LoginResolves | src/main.rs:162-170 | after login the version is unchanged, and without a readable override resolution gives the trimmed entered line, or nothing when the line is blank |
| Config.LogoutResolvesNone | src/main.rs:185-188 | after logout the version is unchanged and, without a readable override, no token resolves |
| Config.LogoutIdempotent | src/main.rs:186-188 | logging out an already logged-out record gives the same record |
| Api.BearerCarriesToken | src/main.rs:214 | the Authorization value is `Bearer ` followed by exactly the token |
| Api.PublishRequestInjective | src/main.rs:260-263 | the PATCH request determines the résumé identifier, the token and the document it wraps under `contents` |
| Cli.Shell.RunInit | src/main.rs:120-133 | exit 1 and no change on an existing path; otherwise exit 0 and the template written to exactly that path; no existing file is ever changed |
| Cli.Shell.RunValidate | src/main.rs:135-159 | exit 0 exactly when the file exists and its document conforms to the schema, otherwise 1; nothing changes |
| Cli.Shell.RunAuthLogin | src/main.rs:161-183 | a successful store leaves the loaded record with the trimmed line as token and exits 0; a failed store exits 1 and leaves the file as it was |
| Cli.Shell.RunAuthLogout | src/main.rs:185-201 | a successful store leaves the loaded record with an empty token and exits 0; a failed store exits 1 and leaves the file as it was |
| Cli.Shell.RunAuthCheck | src/main.rs:203-228 | no token: exit 1 and no request; otherwise exactly one GET to the service with `Bearer <token>`, exit 0 exactly when it succeeded |
| Cli.Shell.RunPublish | src/main.rs:235-282 | a request is sent exactly when the file exists, conforms and a token resolves, and then it is one PATCH to `/api/cv/{cv_id}` with `Bearer <token>` and body `{contents: document}`, exit 0 exactly when it succeeded; every other path exits 1 having sent nothing; the configuration must be loadable only once validation has passed |
| Cli.Shell.Run | src/main.rs:96-118 | every path exits 0 or 1 and no subcommand exits 1; each subcommand changes only its own part of the state, and its exit code and new state are exactly those its handler promises (the file written by init, the record stored by login or logout, the request appended by check or publish and the code that follows the response) |
| Scenarios.InitTwice | src/main.rs:121-131 | init on a fresh path exits 0 and writes the template; a second init on it exits 1 |
| Scenarios.LoginThenCheck | src/main.rs:203-215 | login then check with no override sends one GET carrying the trimmed line, or nothing for a blank line; the exit code follows |
| Scenarios.EnteredTokenResolves | src/main.rs:166-170 | entering `tok-123` with its newline at the prompt makes `tok-123` the resolved token |
| Scenarios.PublishWithoutToken | src/main.rs:251-257 | publishing a valid document with no override and no configuration exits 1 and sends nothing |
| Scenarios.PublishWithOverride | src/main.rs:289-292 | with an override set, publish sends the override's value as the token even when the configuration file is unreadable |
| Scenarios.LogoutTwice | src/main.rs:185-201 | two logouts leave the same configuration as one, with an empty token and the version kept; nothing resolves afterwards without an override |

## Left out

- Argument parsing and help text (clap, `src/main.rs:16-79`) are not modelled. The model starts from the parsed subcommand. `auth` without a subcommand cannot reach `src/main.rs:103`, because `arg_required_else_help` stops it first, so `AuthCommand` is not optional. The default file name `cv.json` is clap's and is not modelled: the file name is always an argument.
- JSON Schema semantics and the bundled `schema.json` are not modelled. Conformance is the arbitrary predicate `conforms`, so the claim that the bundled template conforms to the bundled schema cannot be stated.
- JSON parsing and pretty-printing (serde_json) and the bundled `alice.json` are not modelled. Files are held in parsed form, and the template is an arbitrary JSON value. Pretty-printing and re-parsing are assumed to give back the same value.
- Panics are preconditions rather than outcomes: configuration load (`src/main.rs:162`, `186`, `294`), file read and parse (`143-144`, `243-244`). The following are assumed to succeed instead: the template write (`130`), the template parse (`127`), the standard-input read (`168`), whose line is a parameter, the parse of the bundled schema (`147`, `247`), and `jsonschema::validate` itself, which is taken never to panic on the bundled schema (`149`, `249`).
- confy: the storage location and format are not modelled. Neither is the write of a default file when loading finds none: the record loaded is the same either way. That write is assumed to succeed, so an `Absent` file always loads; a failed write would make `confy::load` return `Err` and the `unwrap()` at `src/main.rs:162`, `186` or `294` panic.
- Cli.Shell.RunAuthLogin: assumes a failed `confy::store` leaves the configuration file as it was; a partial write is not modelled.
- Cli.Shell.RunAuthLogout: assumes a failed `confy::store` leaves the configuration file as it was; a partial write is not modelled.
- Messages printed with `println!`/`eprintln!`, including the schema diagnostic, are not modelled. Only exit codes and state are.
- The request log holds the requests handed to ureq, not the requests that reached the network. ureq can refuse to build a request, for example for a token with a control character (not a valid header value) or a `cv_id` that does not form a valid URL; the call then returns `Err`, nothing is sent (`src/main.rs:213-215`, `261-263`), and the model still logs the request, with exit code 1.
- ureq transport details (timeouts, TLS, status codes) are not modelled. Only whether the call returned `Ok` matters, and it is a parameter.
- The file map has one key per file, by the path string as given. `cv.json`, `./cv.json` and a symbolic link to it are one file on disk but distinct keys in the model, so `init`, `validate` and `publish` on a second spelling of an existing file behave as if the file were missing. Path resolution is not modelled.
- `Path::exists` is also true for a directory. The model's file map holds only files.
- Concurrent runs of the tool against one configuration file are not modelled. Each command is one sequential run.

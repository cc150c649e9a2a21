# satori-cli core, modelled in Dafny

satori-cli connects local tools to Satori-managed datastores. This project models its core:

- **Login.** The login flow reads the two caches, the database credentials and the datastore inventory. It acquires a bearer token through the OAuth/PKCE browser callback or a pasted code, at most once per run. It fetches the caller's profile, the credentials and the inventory as needed, and persists them.
- **Console client.** Requests to the Satori console, the handling of their status codes, and the datastore inventory built from the console's answer.
- **Tools.** They consume the `(credentials, inventory)` pair:
  - the `.pgpass` merge;
  - the AWS credentials and config files;
  - `run dbt`, which rewrites the selected target of `profiles.yml`;
  - `run <tool>` for the templated tools of the tool inventory;
  - `list`.
- **Shell completion.** The rewriting that adds dynamic datastore and database completion (Bash, PowerShell, Zsh), and the argument parsers that locate the dbt and AWS files.

The model has one module per source file, plus three helper modules:

- `Wrappers` holds `Option` and `Result`.
- `Strings` holds the handful of Rust string operations the code relies on.
- `Paths` holds `PathBuf` as a list of components.

The outside world is passed in as parameters. This covers:

- the file contents;
- console answers (a `send` oracle, or an `Environment` record of answers);
- the clock and random draws;
- the template engine (`compiles`, `render`);
- the process executer;
- the order in which a hash set or hash map is visited.

What the code writes or executes is returned as out-parameters: a log of `Event`s for the login, the written file contents, and the `Command` handed to the executer. A Rust panic (`unwrap`, `expect`) is a `Panicked`/`Panic` outcome or `None`. Objects that the code mutates in place are classes:

- the write-once `OnceLock` slots of the login;
- the INI documents of the AWS tool;
- the two completion registries.

Observations from the source that the model follows as written:

- **Account-id check.** `run_with_file` (`src/login/flow.rs:65-75`) never compares the account id of a cached inventory with the profile's: a loadable inventory file is used whatever account it belongs to. Only the `login` command (`refresh_datastores`, lines 155-173) compares them. `LoginFlow.InventoryAccountCheckedOnlyByLogin` states the difference.
- **Inventory load errors.** `run_with_file` maps every error of `datastores::file::load`, a home-directory failure included, to "no cached inventory" (lines 68-74), so the model does too.
- **Argument order at `src/login/flow.rs:58`.** `run_with_file` passes the domain and the user id to `get_database_credentials` in the opposite order from its parameters. `run` (line 132) passes them in order. The `FetchCredentials` events record the arguments as the console call receives them.
- **Backup and create errors in `run dbt`.** A failing `File::create` of `profiles.yml` is reported as `DbtProfilesReadError` (`DbtRun.SaveProfiles`).
- **Bash fallback.** The fallback lookup at `src/cli/auto_complete.rs:125` (`esac\n}` after a failed `esac` lookup) can never succeed, because `esac\n}` contains `esac`. So that code path always panics (`AutoComplete.BashFallbackNeverSucceeds`).
- **Revisions that disagree.** The source files come from revisions that do not quite agree. The model declares the union of what the call sites use:
  - `src/helpers/datastores/mod.rs` has a three-argument `get_from_console` that stores the domain as the account id. `Datastores.GetFromConsole` models that. `src/login/flow.rs` calls it with an account id, which the login model stores.
  - `web_server::start` and `generate_token_oauth` take different arguments at their call sites than where they are defined.
  - The profile type lacks `account_id`.
  - `DatabaseCredentials` (`src/helpers/satori_console/data.rs:5-10`) has no `expires_soon`, and it names its expiry field `expired_at`. `src/login/flow.rs` calls `credentials.expires_soon()` (line 348) and reads `credentials.expires_at` (line 325) on it. The model keeps the field name `expiredAt` and applies the rule of `Credentials::expires_soon` (`src/login/data.rs:68-80`) through `LoginData.FromDatabaseCredentials`.
  - The error enums of `src/login/errors.rs`, `src/tools/errors.rs` and `src/run/errors.rs` lack variants that the flows raise.
  - `DatastoresError` (`src/helpers/datastores/errors.rs:6-13`) has no variant for a console error, which the `?` of `src/helpers/datastores/mod.rs:25` needs. The model adds `Console`.

Further modelling choices:

- The `\s` of the dbt regex is ASCII white space (`Strings.IsWhitespace`).
- `split_whitespace` likewise splits on ASCII white space only.
- Paths are not normalised.
- `list` yields the printed text without the line break `println!` adds.
- Instants are integers counting nanoseconds since the epoch.

## Model

| member | source | states |
|---|---|---|
| LoginData.DefaultLogin | src/login/data.rs:26-41 | the builder defaults: write to file, the Satori domain, port 0, open the browser, CSV, no refresh, certificates checked |
| LoginData.FromDatabaseCredentials | src/login/data.rs:57-65 | username, password and expiry are carried over unchanged |
| LoginData.ExpiresSoonIff | src/login/data.rs:67-80 | credentials "expire soon" exactly when less than 15 minutes remain, including for expired credentials (truncating minute count) |
| LoginData.ExpiryBoundaries | src/login/data.rs:67-80 | exactly 15 minutes left is not soon, 14:59 is, expired is, two hours left is not |
| ConsoleErrors.HandleReqwestError | src/helpers/satori_console/errors.rs:19-28 | 401, 403, 400 and 404 map to Authorization, Forbidden, SatoriClient and UserNotFound errors (each iff), anything else to Reqwest; the error is kept |
| ConsoleApi.HandleStatusCode | src/helpers/satori_console/api.rs:99-108 | ok iff the statuses are equal; otherwise `Status` carrying the actual status |
| ConsoleApi.Receive | src/helpers/satori_console/api.rs:34-42 | a call succeeds iff transport, status and JSON decoding all succeed; each failure maps to its own error variant |
| ConsoleApi.GetHeadersNoJwt | src/helpers/satori_console/api.rs:86-97 | exactly the accept, user-agent `satori-cli/<version>/<client id>` and zero content-length headers |
| ConsoleApi.GetHeadersWithJwt | src/helpers/satori_console/api.rs:80-84 | the base headers unchanged plus `authorization: Bearer <jwt>`, nothing else |
| ConsoleApi.TokenRequest | src/helpers/satori_console/api.rs:15-38 | a POST to `/api/oauth/token` with grant type, code, client id and verifier in that order, form content type |
| ConsoleApi.CredentialsRequest | src/helpers/satori_console/api.rs:51-56 | a PUT to `/api/users/<id>/database-credentials` with the bearer headers |
| ConsoleApi.ProfileRequest | src/helpers/satori_console/api.rs:69-74 | a GET of `/api/users/me/profile` with the bearer headers |
| ConsoleApi.GenerateTokenOauth | src/helpers/satori_console/api.rs:9-43 | the exchange succeeds only on 201 CREATED with a decodable body; another status is `Status` with it |
| ConsoleApi.GetDatabaseCredentials | src/helpers/satori_console/api.rs:45-62 | succeeds only on 200 OK with a decodable body |
| ConsoleApi.GetUserInfo | src/helpers/satori_console/api.rs:64-78 | succeeds only on 200 OK with a decodable body |
| Datastores.MongoDeploymentTypeFrom | src/helpers/datastores/data.rs:92-103 | each console deployment kind maps to the inventory's kind |
| Datastores.FromAccessDetails | src/helpers/datastores/data.rs:54-65 | host, databases, port and type are copied; a deployment type exists iff settings do, and is their conversion |
| Datastores.CollectByNameKeys | src/helpers/datastores/data.rs:23-31 | the collected map is keyed by exactly the records' names |
| Datastores.CollectByNameValue | src/helpers/datastores/data.rs:23-31 | a name maps to the conversion of the last visited record with that name |
| Datastores.NewFromConsoleResponse | src/helpers/datastores/data.rs:19-36 | the account id is kept; keys are the record names; each value is the conversion of the last record visited with that name |
| Datastores.GetFromConsole | src/helpers/datastores/mod.rs:20-28 | ok iff the console call is; this revision stores the domain as the account id; a console error is wrapped |
| Datastores.GetDatastoreName | src/helpers/datastores/data.rs:67-84 | non-Mongo: the Satori host; Mongo: `mongodb://host:port` (27017 by default) or `mongodb+srv://host`; an error iff Mongo without deployment type |
| WebServer.OnceLock.Set | src/login/data.rs:13-15 | a write-once slot: set succeeds iff it was empty, and a failing set changes nothing |
| WebServer.OauthResponse | src/login/web_server.rs:36-64 | state unset, state mismatch and verifier unset are rejected in that order without touching the JWT; a matching callback exchanges the code and fills the JWT slot only if it was empty; the JWT changes iff the reply is a redirect to `<domain>/oauth/authorize/finish` |
| WebServer.MismatchThenMatch | src/login/web_server.rs:36-64 | a callback with a wrong state leaves the slot empty, so a later correct callback still delivers the token |
| LoginFlow.ReadCredentialsFromFile | src/login/flow.rs:339-355 | credentials come back iff the file parses and they are good for at least 15 more minutes; unreadable or unparsable files are never errors |
| LoginFlow.WriteToFile | src/login/flow.rs:261-270 | ok iff the app folder resolves, the directories are created and the write succeeds; failures name `<app folder>/credentials.json` |
| LoginFlow.CredentialsAsString | src/login/flow.rs:318-330 | CSV is `username,password,expiry`; JSON and YAML are the serialisers' output |
| LoginFlow.CsvSplitsIntoFields | src/login/flow.rs:322-326 | the CSV line splits back into its three fields when none holds a comma |
| LoginFlow.ExtractCode | src/login/flow.rs:371-385 | ok iff some `&`-separated pair is exactly `code=<v>` (two `=` parts); the value is that of the first such pair; otherwise `CodeNotFound` |
| LoginFlow.CodePairCarriesValue | src/login/flow.rs:378-383 | `code=v` is accepted and carries `v` |
| LoginFlow.SecondEqualsRejects | src/login/flow.rs:378-383 | a pair with two `=` is never accepted |
| LoginFlow.BuildOauthUri | src/login/flow.rs:295-316 | ok iff the base address parses; the URL is `<domain>/oauth/authorize` with the six PKCE parameters and their values; an error names the domain |
| LoginFlow.Sample | src/login/flow.rs:274-278 | `n` characters, each drawn from the alphabet |
| LoginFlow.BuildState | src/login/flow.rs:287-293 | twelve characters, all lower-case letters |
| LoginFlow.GenerateCodeChallengePair | src/login/flow.rs:272-285 | a 40-character alphanumeric verifier, each character the draw of the generator at its position, and its digest as the challenge |
| LoginFlow.WaitTillJwt | src/login/flow.rs:357-369 | returns the first token seen, or `JwtTimeout` once 15 minutes passed with the slot still empty; at most 181 polls, the last at 15 minutes |
| LoginFlow.TokenOf | src/login/flow.rs:238-241 | the access token of a successful exchange, or the console error |
| LoginFlow.NoBrowser | src/login/flow.rs:215-242 | the shown URL redirects to the finish page; an unparsable address is `UrlParseError`, a failed read `CodeReadError`, bad base64 `Base64DecodeError`, bad UTF-8 a panic; otherwise `CodeNotFound` iff no pair is accepted, and whenever a pair is accepted the result is the exchange of the first accepted code with the verifier (`ManualAnswer`) |
| LoginFlow.GetJwt | src/login/flow.rs:187-259 | a bind failure is `WebServerStartError` with nothing stored; a panic iff a slot it fills is already filled or the manual path meets bad UTF-8; otherwise a 12-letter state is stored and carried by the shown URL; the manual path answers as `no_browser` with the drawn verifier, whose challenge the URL carries; the browser path stores the verifier, shows its challenge and the localhost redirect, and is `UrlParseError` on an unparsable address and otherwise `wait_till_jwt`'s answer (`WaitAnswer`) |
| LoginFlow.ManualPanics | src/login/flow.rs:235 | `no_browser` panics exactly when the pasted code decodes to bytes that are not UTF-8 |
| LoginFlow.PlanCacheHit | src/login/flow.rs:32-117 | with fresh credentials and a loadable inventory and no refresh, `run_with_file` makes no call and writes nothing |
| LoginFlow.PlanRefresh | src/login/flow.rs:32-117 | refresh fetches token, profile, credentials (persisted when asked) and inventory (always persisted), in that order |
| LoginFlow.PlanCredentialsOnly | src/login/flow.rs:36-64 | credentials needed and inventory loadable: one token, profile and credentials fetch, no inventory fetch |
| LoginFlow.PlanInventoryOnly | src/login/flow.rs:65-115 | fresh credentials but no inventory: token, profile and inventory are fetched, credentials are not |
| LoginFlow.PlanPersists | src/login/flow.rs:60-112 | credentials are persisted iff fetched and asked to; the inventory iff fetched; a fetched inventory is always persisted |
| LoginFlow.PlanFetchesOnce | src/login/flow.rs:32-117 | the token and the profile are each acquired at most once, and the inventory fetched at most once |
| LoginFlow.RunFetchesOnce | src/login/flow.rs:32-117 | every run, including one cut short by an error, acquires the token and the profile at most once |
| LoginFlow.CredentialsStep | src/login/flow.rs:36-64 | cached credentials when fresh; otherwise token, profile and credentials with their values passed on; succeeds iff the cache serves or every call it needs succeeds (the write only when `write_to_file`); a failure is the first failing call's error, converted as `?` does; its log is a prefix of the credentials stage, and all of it on success |
| LoginFlow.InventoryStep | src/login/flow.rs:65-115 | the cached inventory when it loads; otherwise the console's inventory under the profile's account id, reusing the token and account id of the credentials stage; succeeds iff the cache serves or the token, profile, inventory fetch and inventory write it needs succeed; a failure is the first failing call's error; its log is a prefix of the inventory stage, and all of it on success |
| LoginFlow.RunWithFile | src/login/flow.rs:32-117 | succeeds iff the app folder resolves and both stages succeed; a failure is the app-folder error, else the credentials stage's first failing call, else the inventory stage's; the events are a prefix of the plan, and all of it on success; cached pieces are returned as read, fetched ones as fetched; an app-folder error comes first and does nothing else |
| LoginFlow.UnusableCacheFetches | src/login/flow.rs:339-355 | a credentials file that cannot be read, does not parse, or expires within 15 minutes makes the run fetch credentials for the caller's profile |
| LoginFlow.CallsSucceedRunSucceeds | src/login/flow.rs:32-117 | when every console call and file write succeeds, both stages of `run_with_file` succeed |
| LoginFlow.RefreshDatastores | src/login/flow.rs:155-173 | the inventory is kept iff not refreshing, the file loads and it belongs to the profile's account |
| LoginFlow.InventoryAccountCheckedOnlyByLogin | src/login/flow.rs:65-75 | a loadable inventory of another account is kept by `run_with_file` but refreshed by `login` |
| LoginFlow.Run | src/login/flow.rs:121-153 | always token, profile and credentials first; then persist or print the credentials; then fetch and persist the inventory iff `refresh_datastores` says so; succeeds iff every call it makes succeeds; a failure is the first failing call's error, and the log stops there |
| LoginFlow.CallsSucceedLoginSucceeds | src/login/flow.rs:121-153 | when every console call and file write succeeds, `login` succeeds |
| PgPass.Parse | src/tools/pgpass/flow.rs:131-141 | a line parses iff it has at least five `:` fields and a `u16` port (otherwise the source panics); parsed entries are clean |
| PgPass.ParseDisplay | src/tools/pgpass/flow.rs:131-151 | a clean entry parses back from its displayed line |
| PgPass.ColonCutsPassword | src/tools/pgpass/flow.rs:131-151 | a password holding `:` comes back cut at the first `:` (the format has no escaping) |
| PgPass.ParseLines | src/tools/pgpass/flow.rs:207-215 | every line parses, or none is returned; entry `i` is line `i`'s parse |
| PgPass.CollectFirstKeys | src/tools/pgpass/flow.rs:97-118 | the collected set is keyed by host, port and database, and holds exactly the keys of the entries |
| PgPass.CollectFirstValue | src/tools/pgpass/flow.rs:97-118 | for equal keys the set keeps the first entry inserted |
| PgPass.CollectFirstClean | src/tools/pgpass/flow.rs:207-215 | a set collected from clean entries is clean |
| PgPass.PgPassFromFile | src/tools/pgpass/flow.rs:207-215 | a panic iff some line fails to parse; a read error iff all prior lines parse; otherwise exactly the keys of the lines, each with its first entry |
| PgPass.HostOf | src/tools/pgpass/flow.rs:193-197 | for a PostgreSQL-dialect datastore the host is its Satori host, and the `expect` cannot fire |
| PgPass.PgPassFromSatoriDb | src/tools/pgpass/flow.rs:163-205 | one entry per database of each PostgreSQL-dialect datastore with a port, all carrying the Satori credentials |
| PgPass.SatoriEntriesFromDatastores | src/tools/pgpass/flow.rs:163-205 | every such database has an entry at its datastore's host and port, and every entry comes from one |
| PgPass.Difference | src/tools/pgpass/flow.rs:37-42 | the entries of one set whose key is not in the other |
| PgPass.IntersectionAsWritten | src/tools/pgpass/flow.rs:43-45 | the common keys, with the entries taken from the smaller set, as the standard library iterates |
| PgPass.IntersectionFresh | src/tools/pgpass/flow.rs:43-45 | the common keys with the Satori entries |
| PgPass.StaleCredentialsKept | src/tools/pgpass/flow.rs:43-45 | a one-entry file and two Satori entries: the intersection as written keeps the old password; the corrected one the new |
| PgPass.MergedAsWrittenEntries | src/tools/pgpass/flow.rs:37-57 | the rewrite the code performs (`MergedAsWritten`) holds every key of both sides and the user's other entries unchanged; a new Satori key gets the Satori entry; a common key gets the entry of the smaller set, so the file's own when it is the smaller |
| PgPass.MergedEntries | src/tools/pgpass/flow.rs:37-57 | the corrected merge (`Merged`, with the intended intersection) holds every key of both sides, the Satori entry for every Satori key, and the user's other entries unchanged |
| PgPass.MergesAgreeUnlessFileSmaller | src/tools/pgpass/flow.rs:37-45 | when Satori offers no more entries than the file holds, the rewrite as written is the corrected merge |
| PgPass.RunMergeKeepsStale | src/tools/pgpass/flow.rs:37-57 | on the one-entry file and two Satori entries, the file written keeps the old password where the corrected merge has the new one |
| PgPass.AppendEntry | src/tools/pgpass/flow.rs:49-57 | appending an entry with a new key keeps keys distinct and adds it to the written set |
| PgPass.CollectFirstDistinct | src/tools/pgpass/flow.rs:207-215 | entries with distinct keys collect into exactly their set |
| PgPass.AsMapKeys | src/tools/pgpass/flow.rs:49-57 | the written set has exactly the keys of the written entries |
| PgPass.Displays | src/tools/pgpass/flow.rs:143-151 | line `i` is the display of entry `i` |
| PgPass.ParseLinesDisplays | src/tools/pgpass/flow.rs:131-151 | clean entries parse back from their lines |
| PgPass.RereadWritten | src/tools/pgpass/flow.rs:207-215 | a file written from clean, distinctly keyed entries reads back as the set written |
| PgPass.WriteProgressStep | src/tools/pgpass/flow.rs:49-51 | writing one more entry of a group keeps the written prefix, distinct keys, and moves the entry from remaining to done |
| PgPass.WriteGroup | src/tools/pgpass/flow.rs:49-51 | the group's entries are appended, each once, in some order; every line before the last written went through; success means the file holds the previous entries plus the group; a failure is at an unwritable line and leaves an entry of the group unwritten |
| PgPass.GroupWrittenSize | src/tools/pgpass/flow.rs:49-51 | a completed group adds one line per entry; an incomplete one fewer |
| PgPass.WritePart | src/tools/pgpass/flow.rs:49-57 | one of the rewrite's loops: the lines before it stay, and each line it adds is an entry of its group and of the whole target; complete, it adds one line per entry; a failure inside it is a failure before the file's last line |
| PgPass.GroupsWellKeyed | src/tools/pgpass/flow.rs:37-45 | each of the three groups keeps its entries under their own keys |
| PgPass.GroupsDisjoint | src/tools/pgpass/flow.rs:37-45 | no key is in two of the three groups |
| PgPass.WriteThree | src/tools/pgpass/flow.rs:49-57 | the three groups in sequence: distinct keys, each line an entry of the union, all of it on success; the lines of the first group come first, then the second's, then the third's; every line written went through; it succeeds iff each of the union's lines is writable |
| PgPass.WriteTurn | src/tools/pgpass/flow.rs:49-57 | one loop of the three, started where the previous loops left off: the lines stay in group order and distinctly keyed; a failure means some line of the union is not writable |
| PgPass.StaysInOrder | src/tools/pgpass/flow.rs:49-57 | appending entries of the group whose turn it is keeps the lines in group order |
| PgPass.UserEntriesFirst | src/tools/pgpass/flow.rs:49-51 | the first lines written, one per entry of the first group, are exactly the user's own entries that Satori does not manage |
| PgPass.AsMapEntry | src/tools/pgpass/flow.rs:49-57 | with distinct keys, the written set maps each line's key to that line's entry |
| PgPass.ExtendEntries | src/tools/pgpass/flow.rs:49-57 | appending entries of a part of the target keeps every line an entry of the target |
| PgPass.Finish | src/tools/pgpass/flow.rs:47-63 | the file holds the written lines; a complete, clean rewrite reads back as the target |
| PgPass.Run | src/tools/pgpass/flow.rs:21-67 | login, open, parse, read and truncate failures leave the file as it was, each with its own error or panic; once the file opens, parses and truncates (or is created), the outcome is success or `FailedWritingToPgpassFile`, and success iff every line of the target (`Target`) is writable; the file is rewritten with the merge as written (common entries from the smaller set) or created with the Satori entries, distinctly keyed, all of it on success; every line written went through; a rewrite writes the user's own entries first, then the new Satori entries, then the common ones |
| PgPass.TargetClean | src/tools/pgpass/flow.rs:28-45 | with clean Satori entries the whole rewrite is clean |
| PgPass.WrittenClean | src/tools/pgpass/flow.rs:49-57 | lines written from a clean target are clean |
| AwsParser.GetFromEnvOrDefault | src/cli/parsers/tools/aws.rs:39-50 | a set variable is used verbatim; otherwise `<home>/<default>`, `HomeDirNotFound` or `HomeDirError` |
| AwsParser.GetCredentialsPath | src/cli/parsers/tools/aws.rs:13-33 | `AWS_SHARED_CREDENTIALS_FILE`, else `<home>/.aws/credentials` |
| AwsParser.GetConfigPath | src/cli/parsers/tools/aws.rs:14-37 | `AWS_CONFIG_FILE`, else `<home>/.aws/config` |
| AwsParser.DefaultCredentialsPath | src/cli/parsers/tools/aws.rs:16-33 | the default is the file `credentials` in `.aws` under the home directory |
| AwsParser.DefaultConfigPath | src/cli/parsers/tools/aws.rs:17-37 | the default is the file `config` in `.aws` under the home directory |
| AwsParser.Build | src/cli/parsers/tools/aws.rs:19-29 | ok iff both paths resolve; the credentials-path error wins |
| AwsParser.BuildWithoutEnvironment | src/cli/parsers/tools/aws.rs:19-50 | with neither variable set, building succeeds iff the home directory is found, with the matching error otherwise |
| AwsTool.WithKey | src/tools/aws/flow.rs:23-26 | the section is created if needed and the key set; every other section and key is unchanged |
| AwsTool.Ini.Set | src/tools/aws/flow.rs:23-34 | `with_section(..).set(..)` updates the document in place as `WithKey` |
| AwsTool.IniContentOrNew | src/tools/aws/flow.rs:43-51 | a file that does not load gives an empty document |
| AwsTool.CredentialsSection | src/tools/aws/flow.rs:13-26 | `WithCredentials` makes the `SATORI` section hold the username and password under the AWS key names; nothing else changes |
| AwsTool.EndpointSection | src/tools/aws/flow.rs:32-34 | after `WithEndpoint`, `profile SATORI` holds `endpoint_url = https://<host>`; nothing else changes |
| AwsTool.GetS3Endpoint | src/tools/aws/flow.rs:53-67 | the Satori host of some S3 datastore, or `S3DatastoreNotFound` iff there is none |
| AwsTool.Run | src/tools/aws/flow.rs:17-41 | a login error writes nothing; the credentials file is written before the S3 lookup, so a missing S3 datastore leaves it written and the config untouched; success iff every step succeeds, with the endpoint of an S3 datastore |
| DbtParser.Source | src/cli/parsers/run/dbt.rs:29-53 | the flag, then `DBT_PROFILES_DIR`, then the current directory holding `profiles.yml`, then the home directory |
| DbtParser.ProfilesDir | src/cli/parsers/run/dbt.rs:35-51 | the directory of each source, `<home>/.dbt` for the last; panics are `None` |
| DbtParser.JoinProfilesFile | src/cli/parsers/run/dbt.rs:52 | the chosen path ends in `profiles.yml` |
| DbtParser.GetProfilesPath | src/cli/parsers/run/dbt.rs:35-53 | `profiles.yml` in the chosen directory; a panic iff choosing the directory does |
| DbtParser.FlagWins | src/cli/parsers/run/dbt.rs:36-37 | with the flag, nothing else affects the path |
| DbtParser.EnvironmentWins | src/cli/parsers/run/dbt.rs:39-40 | without the flag, a set variable decides the path |
| DbtParser.GetProfile | src/cli/parsers/run/dbt.rs:55-60 | the project's profile; an unopenable file and an unparsable file get their own errors |
| DbtParser.Build | src/cli/parsers/run/dbt.rs:11-27 | the path first (a panic), then the profile; the result carries the path, profile, target, additional arguments and login |
| DbtRun.OccursConcat | src/run/dbt.rs:110 | a concatenation occurs where its parts occur one after the other (the basis of the pattern matcher) |
| DbtRun.SkipWhitespace | src/run/dbt.rs:110 | the `\s*` pieces of the pattern: the maximal run of white space |
| DbtRun.SkipName | src/run/dbt.rs:110 | the `[^'"]+` piece of the pattern: the maximal run of non-quotes |
| DbtRun.SkipWhitespaceAt | src/run/dbt.rs:110 | any white-space run ended by something else is the one found |
| DbtRun.SkipNameAt | src/run/dbt.rs:110 | any non-quote run ended by a quote is the one found |
| DbtRun.MatchCloseComplete | src/run/dbt.rs:110 | `\s*\}\}` is matched after the closing parenthesis whenever present |
| DbtRun.MatchNameComplete | src/run/dbt.rs:110 | the name, closing quote and `)` are matched whenever present |
| DbtRun.MatchEnvVarComplete | src/run/dbt.rs:110 | `env_var(` and the opening quote are matched whenever present |
| DbtRun.MatchAtComplete | src/run/dbt.rs:110 | every text matching `\{\{\s*env_var\(['"]([^'"]+)['"]\)\s*\}\}` at a position is found there by `MatchAt` with its capture |
| DbtRun.MatchCloseSound | src/run/dbt.rs:110 | a found close is white space then `}}` |
| DbtRun.MatchNameSound | src/run/dbt.rs:110 | a found name is a non-empty non-quote run followed by a quote, `)`, white space and `}}` |
| DbtRun.MatchEnvVarSound | src/run/dbt.rs:110 | a found `env_var(...)` is one the pattern accepts |
| DbtRun.MatchAtSound | src/run/dbt.rs:110 | every capture `MatchAt` finds comes from a genuine match of the pattern at that position |
| DbtRun.Matches | src/run/dbt.rs:111 | the match at every position of the field |
| DbtRun.FirstFrom | src/run/dbt.rs:111 | the leftmost match, none iff there is none |
| DbtRun.FirstFromAt | src/run/dbt.rs:111 | the match found is the one at the leftmost matching position |
| DbtRun.FirstMatchOfEnvVarReference | src/run/dbt.rs:40-111 | the pattern's leftmost match in a written reference captures the variable it names |
| DbtRun.SatoriReferenceStays | src/run/dbt.rs:109-119 | a written reference to either Satori variable is left alone |
| DbtRun.FirstReferenceDecides | src/run/dbt.rs:109-119 | `ShouldRewriteField` leaves the field alone iff its leftmost reference names `SATORI_USERNAME` or `SATORI_PASSWORD`, with any quotes and white space |
| DbtRun.RewrittenFieldsStay | src/run/dbt.rs:40-119 | the references the rewrite writes are never rewritten again |
| DbtRun.NoReferenceRewritten | src/run/dbt.rs:116-117 | a field without `{{` is rewritten |
| DbtRun.RewriteTargetValues | src/run/dbt.rs:38-46 | user and password become the Satori references when they should be rewritten; host and other fields are kept |
| DbtRun.NoRewriteUnchanged | src/run/dbt.rs:37-47 | a target with nothing to rewrite is left as it is |
| DbtRun.RewriteIdempotent | src/run/dbt.rs:38-46 | after one rewrite nothing needs rewriting: a second run does not change the file |
| DbtRun.RewriteOnlySelected | src/run/dbt.rs:26-59 | only the selected target of the selected profile changes |
| DbtRun.DbtCommand | src/run/dbt.rs:64-87 | `dbt` with the additional arguments, then `--profiles-dir <dir> --target <target>`; the environment disables channel binding and carries the Satori credentials |
| DbtRun.SelectTarget | src/run/dbt.rs:26-107 | ok iff the file reads and parses, the profile exists and the target (requested, else the default) exists; each failure has its own error |
| DbtRun.SaveProfiles | src/run/dbt.rs:50-62 | backup, then create, then serialise; each failure is its error, a create failure reported as a read error; what is stored at each step |
| DbtRun.Run | src/run/dbt.rs:17-89 | selection errors and login errors come first and touch nothing; the profiles are backed up and rewritten iff a field needs it; dbt runs with the selected target unless a save failed or the path has no parent (a panic) |
| DynamicTools.GetEnv | src/helpers/tools.rs:29-36 | the tool's variables as (name, value) pairs in order |
| DynamicTools.FindTool | src/run/dynamic_tools.rs:55-61 | the position of the first tool with the name, none iff there is none |
| DynamicTools.GetToolData | src/run/dynamic_tools.rs:55-63 | the first tool with the name; a panic iff there is none |
| DynamicTools.GetJinjaContext | src/run/dynamic_tools.rs:87-99 | ok iff the datastore has a host; host, user, password, database and port as given; a host error is `DatastoreHostError` |
| DynamicTools.BuildArgs | src/run/dynamic_tools.rs:76-85 | the white-space-separated words of the rendered template, then the additional arguments |
| DynamicTools.BuildArgsOfSpacedWords | src/run/dynamic_tools.rs:76-85 | a template rendering to single-spaced words yields exactly those words |
| DynamicTools.RenderEnvs | src/run/dynamic_tools.rs:40-49 | no panic iff every variable's template compiles and renders; names and order kept, values rendered |
| DynamicTools.Run | src/run/dynamic_tools.rs:15-53 | login error, then unknown datastore, then tool lookup, compile, context, rendering; the executed command is the tool's program with the rendered words and additional arguments and the rendered environment (`RunsTool`, with `RenderedEnvs` for the variables) |
| DynamicTools.ExecutedCommandShape | src/run/dynamic_tools.rs:30-51 | an executed command is the requested tool's program, its arguments end with the additional ones and begin with non-empty words without white space |
| ListFlow.HandleDatastores | src/list/flow.rs:14-24 | a load error is propagated; otherwise every datastore name once, in the map's order, joined by line breaks |
| ListFlow.ListingLines | src/list/flow.rs:16-22 | the listing's lines are exactly the datastore names |
| ListFlow.HandleDatabases | src/list/flow.rs:26-36 | a load error is propagated; an unknown datastore is `DatastoreNotFound`; otherwise its databases in order joined by line breaks |
| ListFlow.DatabaseLines | src/list/flow.rs:29-31 | the listing's lines are exactly the stored databases, in order |
| ListFlow.Run | src/list/flow.rs:5-12 | dispatches on the resource type with the same outcomes as the handlers |
| AutoComplete.Registries.constructor | src/cli/auto_complete.rs:24-25 | both registries start uninitialised |
| AutoComplete.Registries.AddDatabaseToolAutocomplete | src/cli/auto_complete.rs:27-33 | initialises the registry if needed and inserts the name; registering a name again changes nothing |
| AutoComplete.Registries.AddToolAutocomplete | src/cli/auto_complete.rs:35-41 | the same for the tool registry |
| AutoComplete.Completed | src/cli/auto_complete.rs:93-94 | a rewrite that panicked is a panic, otherwise `Ok` of the script |
| AutoComplete.Indent | src/cli/auto_complete.rs:168-207 | `n` spaces |
| AutoComplete.GetIndexes | src/cli/auto_complete.rs:212-228 | the position after the first start text and the first end text from there; each error iff its text is missing |
| AutoComplete.BashFallbackNeverSucceeds | src/cli/auto_complete.rs:120-127 | when `esac` is not found after the case, `esac\n}` is not either |
| AutoComplete.HandleZsh | src/cli/auto_complete.rs:102-114 | ends with the Zsh helper functions; before them, every datastore label is followed by `_datastores` and every database label by `_databases`; the text is the script cut at the leftmost datastore labels and rejoined with the tagged label, then cut at the database labels and rejoined likewise, so nothing else changes; a script without the labels is unchanged; a label present comes back tagged |
| AutoComplete.ZshDatastoreTagged | src/cli/auto_complete.rs:102-114 | a script holding a datastore label comes back holding one followed by `_datastores`, after both replacements and the appended functions |
| AutoComplete.ZshDatabaseTagged | src/cli/auto_complete.rs:102-114 | a script holding a database label comes back holding one followed by `_databases`: the label survives the first replacement and is tagged by the second |
| AutoComplete.ZshEveryLabelTagged | src/cli/auto_complete.rs:102-111 | after both replacements no datastore label lacks `_datastores` and no database label lacks `_databases` |
| AutoComplete.ZshPieces | src/cli/auto_complete.rs:102-111 | each replacement keeps the script between the labels it replaces, in order |
| AutoComplete.ZshSuffixesStartNoLabel | src/cli/auto_complete.rs:102-111 | neither `_datastores` nor `_databases` can hold the start of a label |
| AutoComplete.DatabaseLabelEndsOutside | src/cli/auto_complete.rs:108-111 | no database label ends inside a datastore label already followed by `_datastores`, so the second replacement leaves it whole |
| AutoComplete.DatastoreLabelEndsOutside | src/cli/auto_complete.rs:104-107 | no datastore label ends inside a database label, so the first replacement leaves it whole |
| Strings.ReplacesFirst | src/cli/auto_complete.rs:103-111 | `replace` puts the replacement where the first occurrence was, and leaves the text before it unchanged |
| Strings.InsertionKeeps | src/cli/auto_complete.rs:103-111 | replacing `from` by `from` plus a suffix keeps every occurrence of a text inside which no occurrence of `from` ends |
| Strings.ReplaceAllPieces | src/cli/auto_complete.rs:103-111 | `replace` is the string cut at its leftmost non-overlapping occurrences of `from`, pieces unchanged and in order, joined with `to` |
| Strings.PiecesUnique | src/cli/auto_complete.rs:103-111 | a string has only one cut at its leftmost occurrences |
| Strings.ReplacedPiecesIsReplaceAll | src/cli/auto_complete.rs:103-111 | any result of cutting at the leftmost occurrences and joining with `to` is the `replace` result |
| Strings.ReplaceTagsAll | src/cli/auto_complete.rs:103-111 | after replacing `from` by `from` plus a suffix, every occurrence of `from` carries the suffix, when `from`'s last character occurs only at its end and no occurrence can start inside the suffix |
| Strings.ReplaceKeepsTagged | src/cli/auto_complete.rs:103-111 | a replacement keeps every occurrence of `t` followed by its tag, when no occurrence of `from` ends inside a tagged `t`, `from` ends in the character that only ends `t`, and `t` cannot start inside the suffix |
| AutoComplete.BashReplacement | src/cli/auto_complete.rs:131-135 | datastore completion, database completion for database tools, then the original case as the `else` branch |
| AutoComplete.BashStep | src/cli/auto_complete.rs:119-136 | ok iff the case and its `esac` are found and the database registry exists; the case through `esac` is replaced by its replacement |
| AutoComplete.BashFold | src/cli/auto_complete.rs:118-137 | visiting no tool leaves the script as is |
| AutoComplete.BashFoldAppend | src/cli/auto_complete.rs:118-137 | one more tool is one more step |
| AutoComplete.BashFoldNext | src/cli/auto_complete.rs:118-137 | the state after the tools of a prefix of the order and one more is that tool's step from the prefix's state |
| AutoComplete.BashFoldPanics | src/cli/auto_complete.rs:118-137 | once a step panics, the whole loop does |
| AutoComplete.PowerShellTail | src/cli/auto_complete.rs:200-209 | the moved cases come back before `$completions.Where`, which still ends the replacement |
| AutoComplete.PowerShellStep | src/cli/auto_complete.rs:157-198 | ok iff the case and its `break` are found and the database registry exists; the case becomes the datastore completion (`PowerShellDatastores`) and its original is appended to the moved blocks behind a database completion for a database tool (`PowerShellMoved`) |
| AutoComplete.PowerShellFold | src/cli/auto_complete.rs:154-199 | visiting no tool leaves the script and moves nothing |
| AutoComplete.PowerShellFoldAppend | src/cli/auto_complete.rs:154-199 | one more tool is one more step |
| AutoComplete.PowerShellFoldNext | src/cli/auto_complete.rs:154-199 | the state after the tools of a prefix of the order and one more is that tool's step from the prefix's state |
| AutoComplete.PowerShellFoldPanics | src/cli/auto_complete.rs:154-199 | once a step panics, the whole loop does |
| AutoComplete.PowerShellStart | src/cli/auto_complete.rs:144-150 | the bare-word test removed, the PowerShell helpers appended |
| AutoComplete.PowerShellFinish | src/cli/auto_complete.rs:200-209 | a panic iff the loop panicked |
| AutoComplete.Registries.HandleBash | src/cli/auto_complete.rs:116-140 | an uninitialised tool registry panics; otherwise every registered tool is visited once, in the set's order, each rewriting its case |
| AutoComplete.Registries.HandlePowerShell | src/cli/auto_complete.rs:142-210 | an uninitialised tool registry panics; otherwise every registered tool is visited once and the moved cases are put back |
| AutoComplete.Registries.MakeDynamicCompletionScript | src/cli/auto_complete.rs:88-100 | Bash, PowerShell and Zsh are rewritten; any other shell is the error naming it (`ShellName`) and the supported shells, and that error happens iff the shell is unsupported |

## Left out

- Network transport, TLS and the `invalid_cert` switch: console answers are `send` or `Environment` inputs. The callback web server's binding and routing are left out too; a bind is the `serverPort` input.
- The datastore inventory request and its pagination: `datastores_access_details` is not part of this model, so the inventory records are an input.
- `handle_reqwest_error` is modelled but not called from the console calls, just as in the source.
- Serialisation formats (JSON and YAML of credentials, inventory and dbt profiles, and the INI syntax): documents are modelled as values, and the key order of INI sections is not kept.
- `default_app_folder`, `datastores::file` load and write, and the tool inventory `tools.yaml`: these are inputs or oracles.
- Template compilation and rendering (minijinja), SHA-256 and base64: oracles `compiles`, `render`, `digest` and `decode`.
- Randomness: draws are an `rng` input. The clock: `now` and `elapsed` inputs. Sleeping (five seconds between polls) is not modelled beyond the poll bound.
- Process spawning: `execute` decides the executer's result, and the `Command` handed to it is recorded.
- The OS `webbrowser::open` call and the fallback message it prints: the browser path always shows the URL.
- File permissions (`0o600` on the created `.pgpass`) and the Windows branch.
- A failure after a partial write of the dbt profiles file: the model writes all or nothing.
- Logging, `println!`/`eprintln!` output other than the `list` result, and the line break `println!` adds.
- `auto_complete` itself (file creation and writing) and `generate_autocomplete_text` (the clap generator): the generated script is an input of `MakeDynamicCompletionScript`.
- Rust's byte-indexed strings: strings are sequences of characters, which agrees for ASCII text.
- Non-ASCII Unicode white space in `split_whitespace`, `trim` and the regex `\s`.
- `to_str().unwrap()` on a non-Unicode path: paths are always strings here.
- Concurrency: the `OnceLock`s and `Mutex`es are single-threaded state, and the callback is one request at a time.
- AwsParser.Build: the home directory is looked up once per path; both lookups are taken to give the same answer.
- AwsTool.GetS3Endpoint: states only that some S3 datastore is chosen, because the hash map's order is unspecified.
- PgPass.WriteGroup: the order of lines within a group is unspecified, because the set's iteration order is.
- LoginFlow.RunWithFile and LoginFlow.Run: `get_jwt` is an input result there; `LoginFlow.GetJwt` models it separately.

## Findings

| source | as written | input that shows it | evidently intended | confidence | as-written member | corrected member |
|---|---|---|---|---|---|---|
| src/tools/pgpass/flow.rs:43-45 | `satori_pgpass.intersection(&existing_pgpass)` yields elements of the smaller set, because the standard library iterates the smaller one. When the file holds fewer entries than Satori offers, the overlapping entries keep the file's OLD credentials. | A `.pgpass` holding `h:5432:a:u:old`, and Satori offering `h:5432:a` and `h:5432:b` with password `new` | The Satori entries with the new credentials, as the expired-credentials test (tests/test_pgpass.rs:114-136) expects | not executed | PgPass.IntersectionAsWritten, PgPass.StaleCredentialsKept, PgPass.RunMergeKeepsStale (PgPass.Run writes this merge) | PgPass.IntersectionFresh, PgPass.MergedEntries, PgPass.MergesAgreeUnlessFileSmaller |

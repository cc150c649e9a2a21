/**
 * The login flow (src/login/flow.rs): deciding which of the two caches
 * (database credentials, datastore inventory) must be fetched, acquiring
 * the bearer token at most once, and the helpers that build the OAuth
 * authorization URL, the PKCE pair and the state, and parse the manually
 * pasted code.
 *
 * Network calls, file reads and writes are oracles gathered in
 * `Environment`; the calls a run makes are returned as a log of `Event`s.
 */
module LoginFlow {
  import opened Wrappers
  import opened Strings
  import opened Paths
  import opened ConsoleErrors
  import opened ConsoleApi
  import opened Datastores
  import opened LoginData
  import WebServer

  const OAUTH_URI: String := "oauth/authorize"
  const CREDENTIALS_FILE_NAME: String := "credentials.json"
  const JWT_ACCEPT_TIMEOUT_SECONDS: int := 60 * 15
  const POLL_INTERVAL_SECONDS: int := 5
  const STATE_LENGTH: nat := 12
  const CODE_VERIFIER_LENGTH: nat := 40
  const LOWERCASE: String := "abcdefghijklmnopqrstuvwxyz"
  /** The alphabet of `rand::distributions::Alphanumeric`. */
  const ALPHANUMERIC: String := "ABCDEFGHIJKLMNOPQRSTUVWXYZabcdefghijklmnopqrstuvwxyz0123456789"

  /** The errors of a login. The revision of src/login/errors.rs in the source declares only
      the first five; flow.rs raises the others as well. */
  datatype LoginError =
    | WebServerStartError
    | FailedToCreateDirectories(path: Path)
    | FailedToWriteToFile(path: Path)
    | SerdeJsonFailure
    | HomeFolderError(cause: DefaultFolderError)
    | CodeReadError
    | Base64DecodeError
    | UrlParseError(domain: String)
    | CodeNotFound
    | JwtTimeout
    | SatoriConsole(consoleError: SatoriError)
    | Datastores(datastoresError: DatastoresError)

  // ---------------------------------------------------------------------------------------------
  // The cached credentials file

  /** What reading and parsing the credentials file gives. */
  datatype CredentialsFile = Unreadable | Unparsable | Parsed(credentials: DatabaseCredentials)

  /** `read_credentials_from_file`: a file that cannot be read or parsed, or whose credentials
      expire within fifteen minutes of `now`, yields no credentials; it is never an error. */
  function ReadCredentialsFromFile(file: CredentialsFile, now: int): (r: Option<DatabaseCredentials>)
    ensures r.Some? <==> file.Parsed? && file.credentials.expiredAt - now >= EXPIRATION_TIME_MINUTES * SECONDS_PER_MINUTE * NANOS_PER_SECOND
    ensures r.Some? ==> r.value == file.credentials
  {
    if file.Parsed? then
      ExpiresSoonIff(FromDatabaseCredentials(file.credentials), now);
      if ExpiresSoon(FromDatabaseCredentials(file.credentials), now) then None else Some(file.credentials)
    else None
  }

  /** `write_to_file`: the parent directories are created, then the file is written; the path
      is `credentials.json` inside the application folder. */
  function WriteToFile(appFolder: Result<Path, DefaultFolderError>, directoriesCreated: bool, written: bool): (r: Result<(), LoginError>)
    ensures r.Ok? <==> appFolder.Ok? && directoriesCreated && written
    ensures appFolder.Err? ==> r == Err(HomeFolderError(appFolder.error))
    ensures appFolder.Ok? && !directoriesCreated ==>
      r == Err(FailedToCreateDirectories(JoinRel(appFolder.value, CREDENTIALS_FILE_NAME)))
    ensures appFolder.Ok? && directoriesCreated && !written ==>
      r == Err(FailedToWriteToFile(JoinRel(appFolder.value, CREDENTIALS_FILE_NAME)))
  {
    match appFolder
    case Err(e) => Err(HomeFolderError(e))
    case Ok(folder) =>
      var path := JoinRel(folder, CREDENTIALS_FILE_NAME);
      if !directoriesCreated then Err(FailedToCreateDirectories(path))
      else if !written then Err(FailedToWriteToFile(path))
      else Ok(())
  }

  // ---------------------------------------------------------------------------------------------
  // `credentials_as_string`

  /** The serialisations the model does not spell out: the display of an instant, JSON, YAML. */
  datatype Renderers = Renderers(
    showTime: int -> String,
    toJson: DatabaseCredentials -> String,
    toYaml: DatabaseCredentials -> String)

  /** `credentials_as_string`: CSV is `username,password,expiry`. */
  function CredentialsAsString(c: DatabaseCredentials, format: CredentialsFormat, render: Renderers): (s: String)
    ensures format == Csv ==> s == c.username + "," + c.password + "," + render.showTime(c.expiredAt)
    ensures format == CredentialsFormat.Json ==> s == render.toJson(c)
    ensures format == Yaml ==> s == render.toYaml(c)
  {
    if format == Csv then c.username + "," + c.password + "," + render.showTime(c.expiredAt)
    else if format == CredentialsFormat.Json then render.toJson(c)
    else render.toYaml(c)
  }

  /** The CSV form splits back into its three fields when none of them contains a comma. */
  lemma CsvSplitsIntoFields(c: DatabaseCredentials, render: Renderers)
    requires ',' !in c.username && ',' !in c.password && ',' !in render.showTime(c.expiredAt)
    ensures Split(CredentialsAsString(c, Csv, render), ',') == [c.username, c.password, render.showTime(c.expiredAt)]
  {
    var t := render.showTime(c.expiredAt);
    assert c.username + "," + c.password + "," + t == c.username + [','] + (c.password + [','] + t);
    SplitPrefix(c.username, c.password + [','] + t, ',');
    SplitPrefix(c.password, t, ',');
  }

  // ---------------------------------------------------------------------------------------------
  // `extract_code`

  /** A `&`-separated pair that `extract_code` accepts: exactly two `=`-separated parts, the
      first being `code`. */
  predicate IsCodePair(pair: String) {
    var parts := Split(pair, '=');
    |parts| == 2 && parts[0] == "code"
  }

  /** Pair `i` is the first accepted one. */
  predicate AcceptedFirst(pairs: seq<String>, i: int) {
    0 <= i < |pairs| && IsCodePair(pairs[i]) && forall j :: 0 <= j < i ==> !IsCodePair(pairs[j])
  }

  /** `extract_code`: the value of the first accepted pair, or `CodeNotFound`. */
  method ExtractCode(input: String) returns (r: Result<String, LoginError>)
    ensures r.Ok? <==> exists i :: 0 <= i < |Split(input, '&')| && IsCodePair(Split(input, '&')[i])
    ensures r.Err? ==> r.error == CodeNotFound
    ensures r.Ok? ==> exists i :: AcceptedFirst(Split(input, '&'), i) && r.value == Split(Split(input, '&')[i], '=')[1]
  {
    var pairs := Split(input, '&');
    var k := 0;
    while k < |pairs|
      invariant k <= |pairs|
      invariant forall j :: 0 <= j < k ==> !IsCodePair(pairs[j])
    {
      var parts := Split(pairs[k], '=');
      if |parts| == 2 && parts[0] == "code" {
        assert AcceptedFirst(pairs, k);
        assert IsCodePair(Split(input, '&')[k]);
        return Ok(parts[1]);
      }
      k := k + 1;
    }
    return Err(CodeNotFound);
  }

  /** `code=v`, for a value without `=`, is an accepted pair carrying `v`. */
  lemma CodePairCarriesValue(v: String)
    requires '=' !in v
    ensures IsCodePair("code=" + v)
    ensures Split("code=" + v, '=')[1] == v
  {
    assert "code=" + v == "code" + ['='] + v;
    SplitPrefix("code", v, '=');
  }

  /** A pair with a second `=`, such as `code=a=b`, is not accepted. */
  lemma SecondEqualsRejects(key: String, a: String, b: String)
    requires '=' !in key && '=' !in a
    ensures !IsCodePair(key + "=" + a + "=" + b)
  {
    assert key + "=" + a + "=" + b == key + ['='] + (a + ['='] + b);
    SplitPrefix(key, a + ['='] + b, '=');
    SplitPrefix(a, b, '=');
  }

  // ---------------------------------------------------------------------------------------------
  // The authorization URL, the state and the PKCE pair

  /** The value of the first query parameter named `key`. */
  function QueryValue(query: seq<(String, String)>, key: String): Option<String> {
    if |query| == 0 then None
    else if query[0].0 == key then Some(query[0].1)
    else QueryValue(query[1..], key)
  }

  /** The first parameter named `key` is the value of the first pair with that name. */
  lemma {:induction false} QueryValueFirst(query: seq<(String, String)>, key: String, i: nat)
    requires i < |query| && query[i].0 == key
    requires forall j :: 0 <= j < i ==> query[j].0 != key
    ensures QueryValue(query, key) == Some(query[i].1)
  {
    if i > 0 {
      QueryValueFirst(query[1..], key, i - 1);
    }
  }

  /** `build_oauth_uri`. `Url::parse_with_params` is the oracle `parses`, which says whether the
      base address is a valid URL; an invalid one is `UrlParseError` naming the domain. */
  function BuildOauthUri(domain: String, state: String, codeChallenge: String, redirectUrl: String,
                         parses: String -> bool): (r: Result<Url, LoginError>)
    ensures r.Ok? <==> parses(domain + "/" + OAUTH_URI)
    ensures r.Err? ==> r.error == UrlParseError(domain)
    ensures r.Ok? ==> r.value.address == domain + "/" + OAUTH_URI
    ensures r.Ok? ==> |r.value.query| == 6
    ensures r.Ok? ==>
      && r.value.query[0].0 == "redirect_uri" && r.value.query[1].0 == "response_type"
      && r.value.query[2].0 == "client_id" && r.value.query[3].0 == "code_challenge"
      && r.value.query[4].0 == "code_challenge_method" && r.value.query[5].0 == "state"
    ensures r.Ok? ==>
      && QueryValue(r.value.query, "redirect_uri") == Some(redirectUrl)
      && QueryValue(r.value.query, "response_type") == Some("code")
      && QueryValue(r.value.query, "client_id") == Some(CLIENT_ID)
      && QueryValue(r.value.query, "code_challenge") == Some(codeChallenge)
      && QueryValue(r.value.query, "code_challenge_method") == Some("S256")
      && QueryValue(r.value.query, "state") == Some(state)
  {
    var address := domain + "/" + OAUTH_URI;
    var query := [("redirect_uri", redirectUrl), ("response_type", "code"), ("client_id", CLIENT_ID),
                  ("code_challenge", codeChallenge), ("code_challenge_method", "S256"), ("state", state)];
    if parses(address) then
      QueryValueFirst(query, "redirect_uri", 0);
      QueryValueFirst(query, "response_type", 1);
      QueryValueFirst(query, "client_id", 2);
      QueryValueFirst(query, "code_challenge", 3);
      QueryValueFirst(query, "code_challenge_method", 4);
      QueryValueFirst(query, "state", 5);
      Ok(Url(address, query))
    else Err(UrlParseError(domain))
  }

  /** Character `i` of `s` is the one draw `i` of `rng` picks from `charset`. */
  predicate DrawnFrom(charset: String, rng: nat -> nat, s: String)
    requires |charset| > 0
  {
    forall i :: 0 <= i < |s| ==> s[i] == charset[rng(i) % |charset|]
  }

  /** `n` characters drawn from `charset`; draw `i` picks the character at `rng(i)` modulo the
      alphabet's size. */
  method Sample(charset: String, n: nat, rng: nat -> nat) returns (s: String)
    requires |charset| > 0
    ensures |s| == n
    ensures forall i :: 0 <= i < n ==> s[i] == charset[rng(i) % |charset|]
    ensures forall i :: 0 <= i < n ==> s[i] in charset
  {
    s := "";
    while |s| < n
      invariant |s| <= n
      invariant forall i :: 0 <= i < |s| ==> s[i] == charset[rng(i) % |charset|]
    {
      s := s + [charset[rng(|s|) % |charset|]];
    }
  }

  /** `build_state`: twelve lower-case letters. */
  method BuildState(rng: nat -> nat) returns (state: String)
    ensures |state| == STATE_LENGTH
    ensures forall i :: 0 <= i < |state| ==> 'a' <= state[i] <= 'z'
  {
    state := Sample(LOWERCASE, STATE_LENGTH, rng);
    forall i | 0 <= i < |state| ensures 'a' <= state[i] <= 'z' {
      assert state[i] in LOWERCASE;
    }
  }

  /** `generate_code_challenge_pair`: a 40-character alphanumeric verifier and, as the
      challenge, its SHA-256 digest in URL-safe base64 (the oracle `digest`). */
  method GenerateCodeChallengePair(rng: nat -> nat, digest: String -> String) returns (challenge: String, verifier: String)
    ensures |verifier| == CODE_VERIFIER_LENGTH
    ensures forall i :: 0 <= i < |verifier| ==> verifier[i] in ALPHANUMERIC
    ensures DrawnFrom(ALPHANUMERIC, rng, verifier)
    ensures challenge == digest(verifier)
  {
    verifier := Sample(ALPHANUMERIC, CODE_VERIFIER_LENGTH, rng);
    challenge := digest(verifier);
  }

  // ---------------------------------------------------------------------------------------------
  // Acquiring the bearer token

  /** `wait_till_jwt`. Poll `i` sees the JWT slot holding `slotAt(i)` when `elapsed(i)` seconds
      have passed since the start; between polls the loop sleeps five seconds. The token is
      checked before the timeout; `polls` is the index of the last poll. */
  method WaitTillJwt(slotAt: nat -> Option<String>, elapsed: nat -> int) returns (r: Result<String, LoginError>, polls: nat)
    requires forall i :: elapsed(i) >= POLL_INTERVAL_SECONDS * i
    ensures forall j :: 0 <= j < polls ==> slotAt(j).None? && elapsed(j) < JWT_ACCEPT_TIMEOUT_SECONDS
    ensures r.Ok? ==> slotAt(polls) == Some(r.value)
    ensures r.Err? ==> r.error == JwtTimeout && slotAt(polls).None? && elapsed(polls) >= JWT_ACCEPT_TIMEOUT_SECONDS
    ensures polls <= JWT_ACCEPT_TIMEOUT_SECONDS / POLL_INTERVAL_SECONDS
  {
    polls := 0;
    while true
      invariant polls <= JWT_ACCEPT_TIMEOUT_SECONDS / POLL_INTERVAL_SECONDS
      invariant forall j :: 0 <= j < polls ==> slotAt(j).None? && elapsed(j) < JWT_ACCEPT_TIMEOUT_SECONDS
      decreases JWT_ACCEPT_TIMEOUT_SECONDS / POLL_INTERVAL_SECONDS - polls
    {
      if slotAt(polls).Some? {
        return Ok(slotAt(polls).value), polls;
      }
      if elapsed(polls) >= JWT_ACCEPT_TIMEOUT_SECONDS {
        return Err(JwtTimeout), polls;
      }
      assert POLL_INTERVAL_SECONDS * polls < JWT_ACCEPT_TIMEOUT_SECONDS;
      polls := polls + 1;
    }
  }

  /** No token was seen and the timeout had not passed at any of the first `p` polls. */
  ghost predicate PolledEmpty(slotAt: nat -> Option<String>, elapsed: nat -> int, p: nat) {
    forall j :: 0 <= j < p ==> slotAt(j).None? && elapsed(j) < JWT_ACCEPT_TIMEOUT_SECONDS
  }

  /** What `wait_till_jwt` answers: at the first poll that sees a token or the timeout, the token
      it sees, or `JwtTimeout` with the slot still empty. */
  ghost predicate WaitAnswer(r: Result<String, LoginError>, slotAt: nat -> Option<String>, elapsed: nat -> int) {
    exists p: nat ::
      && p <= JWT_ACCEPT_TIMEOUT_SECONDS / POLL_INTERVAL_SECONDS
      && PolledEmpty(slotAt, elapsed, p)
      && (r.Ok? ==> slotAt(p) == Some(r.value))
      && (r.Err? ==> r.error == JwtTimeout && slotAt(p).None? && elapsed(p) >= JWT_ACCEPT_TIMEOUT_SECONDS)
  }

  /** What decoding the pasted code gives: text, invalid base64, or bytes that are not UTF-8
      (on which `String::from_utf8(..).unwrap()` panics). */
  datatype Decoded = Text(text: String) | InvalidBase64 | InvalidUtf8

  /** The outcome of acquiring a token: the `?`-propagated result, or a panic from an `unwrap`. */
  datatype TokenOutcome = Finished(result: Result<String, LoginError>) | Panic

  /** The access token of a successful exchange, or the console error as a login error. */
  function TokenOf(exchanged: Result<ConsoleApi.OauthResponse, SatoriError>): (r: Result<String, LoginError>)
    ensures r.Ok? <==> exchanged.Ok?
    ensures r.Ok? ==> r.value == exchanged.value.accessToken
    ensures r.Err? ==> r.error == SatoriConsole(exchanged.error)
  {
    match exchanged
    case Ok(response) => Ok(response.accessToken)
    case Err(e) => Err(SatoriConsole(e))
  }

  /** What `no_browser` answers, given the line read and its decoding: `UrlParseError` for an
      authorization address that does not parse, `CodeReadError` without a line, the decoding
      errors, `CodeNotFound` when no pair is accepted, and otherwise the outcome of exchanging
      the first accepted code with `codeVerifier`. */
  ghost predicate ManualAnswer(outcome: TokenOutcome, domain: String, codeVerifier: String, version: String,
                               parses: String -> bool, line: Option<String>, decode: String -> Decoded,
                               send: Request -> Result<Response<ConsoleApi.OauthResponse>, ReqwestError>)
  {
    if !parses(domain + "/" + OAUTH_URI) then outcome == Finished(Err(UrlParseError(domain)))
    else if line.None? then outcome == Finished(Err(CodeReadError))
    else match decode(Trim(line.value))
      case InvalidBase64 => outcome == Finished(Err(Base64DecodeError))
      case InvalidUtf8 => outcome == Panic
      case Text(text) =>
        var pairs := Split(text, '&');
        if forall i :: 0 <= i < |pairs| ==> !IsCodePair(pairs[i]) then outcome == Finished(Err(CodeNotFound))
        else exists i ::
          AcceptedFirst(pairs, i) && outcome == Finished(TokenOf(GenerateTokenOauth(domain, Split(pairs[i], '=')[1], codeVerifier, CLIENT_ID, version, send)))
  }

  /** `no_browser` panics only on a decoding that is not UTF-8. */
  lemma ManualPanics(outcome: TokenOutcome, domain: String, codeVerifier: String, version: String,
                     parses: String -> bool, line: Option<String>, decode: String -> Decoded,
                     send: Request -> Result<Response<ConsoleApi.OauthResponse>, ReqwestError>)
    requires ManualAnswer(outcome, domain, codeVerifier, version, parses, line, decode, send)
    ensures outcome == Panic <==> parses(domain + "/" + OAUTH_URI) && line.Some? && decode(Trim(line.value)).InvalidUtf8?
  {
  }

  /** `no_browser`: print the URL whose redirect is the console's finish page, read a line,
      base64-decode its trimmed text, extract the code and exchange it with the verifier. */
  method NoBrowser(domain: String, state: String, codeChallenge: String, codeVerifier: String, version: String,
                   parses: String -> bool, line: Option<String>, decode: String -> Decoded,
                   send: Request -> Result<Response<ConsoleApi.OauthResponse>, ReqwestError>)
    returns (outcome: TokenOutcome, shown: Option<Url>)
    ensures var url := BuildOauthUri(domain, state, codeChallenge, domain + "/" + WebServer.FINISH_URI, parses);
      shown == (if url.Ok? then Some(url.value) else None)
    ensures var redirect := domain + "/" + WebServer.FINISH_URI;
      BuildOauthUri(domain, state, codeChallenge, redirect, parses).Err? ==>
        outcome == Finished(Err(UrlParseError(domain)))
    ensures parses(domain + "/" + OAUTH_URI) && line.None? ==> outcome == Finished(Err(CodeReadError))
    ensures parses(domain + "/" + OAUTH_URI) && line.Some? ==>
      match decode(Trim(line.value))
      case InvalidBase64 => outcome == Finished(Err(Base64DecodeError))
      case InvalidUtf8 => outcome == Panic
      case Text(text) =>
        && outcome.Finished?
        && (outcome.result == Err(CodeNotFound) <==> forall i :: 0 <= i < |Split(text, '&')| ==> !IsCodePair(Split(text, '&')[i]))
        && (outcome.result.Err? && outcome.result.error != CodeNotFound ==> outcome.result.error.SatoriConsole?)
        && (outcome.result.Ok? ==>
              exists i :: AcceptedFirst(Split(text, '&'), i) && TokenOf(GenerateTokenOauth(domain, Split(Split(text, '&')[i], '=')[1], codeVerifier, CLIENT_ID, version, send)) == outcome.result)
        && ((exists i :: 0 <= i < |Split(text, '&')| && IsCodePair(Split(text, '&')[i])) ==>
              exists i :: AcceptedFirst(Split(text, '&'), i) && outcome.result == TokenOf(GenerateTokenOauth(domain, Split(Split(text, '&')[i], '=')[1], codeVerifier, CLIENT_ID, version, send)))
    ensures ManualAnswer(outcome, domain, codeVerifier, version, parses, line, decode, send)
  {
    var redirect := domain + "/" + WebServer.FINISH_URI;
    var url := BuildOauthUri(domain, state, codeChallenge, redirect, parses);
    if url.Err? {
      return Finished(Err(url.error)), None;
    }
    shown := Some(url.value);
    if line.None? {
      return Finished(Err(CodeReadError)), shown;
    }
    var decoded := decode(Trim(line.value));
    if decoded.InvalidBase64? {
      return Finished(Err(Base64DecodeError)), shown;
    }
    if decoded.InvalidUtf8? {
      return Panic, shown;
    }
    var code := ExtractCode(decoded.text);
    if code.Err? {
      return Finished(Err(code.error)), shown;
    }
    var exchanged := GenerateTokenOauth(domain, code.value, codeVerifier, CLIENT_ID, version, send);
    return Finished(TokenOf(exchanged)), shown;
  }

  /** `get_jwt`. Binding the callback server (`serverPort`, `None` when binding fails) comes
      first; then the PKCE pair and the state are built and the state is stored in its
      write-once slot, whose `unwrap` panics when it is already filled. The browser path stores
      the verifier too, points the authorization URL back at the local server and waits for the
      callback to fill the JWT slot; the manual path does neither. `shown` is the authorization
      URL opened in the browser or printed. */
  method GetJwt(expectedState: WebServer.OnceLock, codeVerifier: WebServer.OnceLock,
                domain: String, openBrowser: bool, version: String, serverPort: Option<nat>,
                verifierRng: nat -> nat, digest: String -> String, stateRng: nat -> nat, parses: String -> bool,
                slotAt: nat -> Option<String>, elapsed: nat -> int,
                line: Option<String>, decode: String -> Decoded,
                send: Request -> Result<Response<ConsoleApi.OauthResponse>, ReqwestError>)
    returns (outcome: TokenOutcome, shown: Option<Url>)
    requires expectedState != codeVerifier
    requires forall i :: elapsed(i) >= POLL_INTERVAL_SECONDS * i
    modifies expectedState, codeVerifier
    ensures serverPort.None? ==> outcome == Finished(Err(WebServerStartError))
    ensures serverPort.None? || old(expectedState.value).Some? ==>
      expectedState.value == old(expectedState.value) && codeVerifier.value == old(codeVerifier.value)
    ensures serverPort.Some? && old(expectedState.value).Some? ==> outcome == Panic
    ensures serverPort.Some? && old(expectedState.value).None? ==>
      expectedState.value.Some? && |expectedState.value.value| == STATE_LENGTH
    ensures !openBrowser ==> codeVerifier.value == old(codeVerifier.value)
    ensures openBrowser && serverPort.Some? && old(expectedState.value).None? && old(codeVerifier.value).Some? ==>
      outcome == Panic
    // the URL the user sees carries the state the callback handler expects and the challenge
    // of the verifier it exchanges
    ensures shown.Some? ==>
      && expectedState.value.Some?
      && QueryValue(shown.value.query, "state") == expectedState.value
      && QueryValue(shown.value.query, "client_id") == Some(CLIENT_ID)
    ensures shown.Some? && openBrowser ==>
      && codeVerifier.value.Some?
      && QueryValue(shown.value.query, "code_challenge") == Some(digest(codeVerifier.value.value))
      && serverPort.Some?
      && QueryValue(shown.value.query, "redirect_uri") == Some("http://localhost:" + NatToString(serverPort.value))
    ensures shown.Some? && !openBrowser ==>
      QueryValue(shown.value.query, "redirect_uri") == Some(domain + "/" + WebServer.FINISH_URI)
    ensures openBrowser && outcome.Finished? && outcome.result.Ok? ==>
      exists i :: slotAt(i) == Some(outcome.result.value)
    // only the two `unwrap`s of an already filled slot and the UTF-8 `unwrap` of `no_browser` panic
    ensures outcome == Panic <==>
      && serverPort.Some?
      && (|| old(expectedState.value).Some?
          || (openBrowser && old(codeVerifier.value).Some?)
          || (!openBrowser && parses(domain + "/" + OAUTH_URI) && line.Some? && decode(Trim(line.value)).InvalidUtf8?))
    // the manual path answers as `no_browser` does with the freshly drawn verifier
    ensures serverPort.Some? && old(expectedState.value).None? && !openBrowser ==>
      exists verifier ::
        && |verifier| == CODE_VERIFIER_LENGTH && DrawnFrom(ALPHANUMERIC, verifierRng, verifier)
        && ManualAnswer(outcome, domain, verifier, version, parses, line, decode, send)
        && (shown.Some? ==> QueryValue(shown.value.query, "code_challenge") == Some(digest(verifier)))
    // the browser path fails on an unparsable address and otherwise answers as `wait_till_jwt` does
    ensures serverPort.Some? && old(expectedState.value).None? && openBrowser && old(codeVerifier.value).None? ==>
      && (!parses(domain + "/" + OAUTH_URI) ==> outcome == Finished(Err(UrlParseError(domain))) && shown.None?)
      && (parses(domain + "/" + OAUTH_URI) ==> outcome.Finished? && WaitAnswer(outcome.result, slotAt, elapsed) && shown.Some?)
  {
    shown := None;
    if serverPort.None? {
      return Finished(Err(WebServerStartError)), None;
    }
    var challenge, verifier := GenerateCodeChallengePair(verifierRng, digest);
    var state := BuildState(stateRng);
    var stored := expectedState.Set(state);
    if !stored {
      return Panic, None;
    }
    if openBrowser {
      var kept := codeVerifier.Set(verifier);
      if !kept {
        return Panic, None;
      }
      var url := BuildOauthUri(domain, state, challenge, "http://localhost:" + NatToString(serverPort.value), parses);
      if url.Err? {
        return Finished(Err(url.error)), None;
      }
      shown := Some(url.value);
      var jwt, polls := WaitTillJwt(slotAt, elapsed);
      assert PolledEmpty(slotAt, elapsed, polls);
      outcome := Finished(jwt);
    } else {
      outcome, shown := NoBrowser(domain, state, challenge, verifier, version, parses, line, decode, send);
      ManualPanics(outcome, domain, verifier, version, parses, line, decode, send);
    }
  }

  // ---------------------------------------------------------------------------------------------
  // Which caches to refresh

  /** The calls and writes a login makes, in order. `FetchCredentials` records the domain and the
      user id in the order the console call receives them. */
  datatype Event =
    | FetchJwt
    | FetchProfile
    | FetchCredentials(domain: String, userId: String)
    | PersistCredentials
    | PrintCredentials(text: String)
    | FetchInventory(accountId: String)
    | PersistInventory

  /** What the outside world answers during one login: the application folder, the two cache
      files as read, the clock, and the results of the token acquisition, the console calls and
      the writes. The console's credentials answer depends on the domain and user id it is
      given. */
  datatype Environment = Environment(
    appFolder: Result<Path, DefaultFolderError>,
    credentialsFile: CredentialsFile,
    inventoryFile: Result<DatastoresInfo, DatastoresError>,
    now: int,
    jwt: Result<String, LoginError>,
    profile: Result<UserProfile, SatoriError>,
    credentials: (String, String) -> Result<DatabaseCredentials, SatoriError>,
    inventory: Result<seq<DatastoreAccessDetails>, SatoriError>,
    directoriesCreated: bool,
    credentialsWritten: bool,
    inventoryWrite: Result<(), DatastoresError>,
    render: Renderers)

  /** The number of occurrences of `x` in `s`. */
  function Count<T(==)>(s: seq<T>, x: T): nat {
    if |s| == 0 then 0 else (if s[0] == x then 1 else 0) + Count(s[1..], x)
  }

  lemma {:induction false} CountConcat<T>(a: seq<T>, b: seq<T>, x: T)
    ensures Count(a + b, x) == Count(a, x) + Count(b, x)
  {
    if |a| == 0 {
      assert a + b == b;
    } else {
      assert (a + b)[0] == a[0];
      assert (a + b)[1..] == a[1..] + b;
      CountConcat(a[1..], b, x);
    }
  }

  lemma {:induction false} CountPrefix<T>(a: seq<T>, b: seq<T>, x: T)
    requires a <= b
    ensures Count(a, x) <= Count(b, x)
  {
    if |a| > 0 {
      assert a[1..] <= b[1..];
      CountPrefix(a[1..], b[1..], x);
    }
  }

  /** `run_with_file` needs fresh credentials: on refresh, or when the file gives none. */
  predicate NeedsCredentials(params: Login, env: Environment) {
    params.refresh || ReadCredentialsFromFile(env.credentialsFile, env.now).None?
  }

  /** `run_with_file` needs the inventory: on refresh, or when the file does not load. */
  predicate NeedsInventory(params: Login, env: Environment) {
    params.refresh || env.inventoryFile.Err?
  }

  /** The events of a successful `run_with_file`: nothing when both caches serve; otherwise the
      token and the profile once, then the credentials (persisted when asked) and the
      inventory (always persisted), each when needed. */
  function Plan(params: Login, env: Environment): seq<Event> {
    PlanOf(NeedsCredentials(params, env), NeedsInventory(params, env), env.profile, params.domain, params.writeToFile)
  }

  function PlanOf(needCredentials: bool, needInventory: bool, profile: Result<UserProfile, SatoriError>,
                  domain: String, writeToFile: bool): seq<Event> {
    CredentialsStage(needCredentials, profile, domain, writeToFile) + InventoryStage(needCredentials, needInventory, profile)
  }

  /** The events of the credentials stage: the token, the profile, the credentials and, when
      asked, their persisting. */
  function CredentialsStage(needCredentials: bool, profile: Result<UserProfile, SatoriError>,
                            domain: String, writeToFile: bool): seq<Event> {
    if !needCredentials then []
    else
      match profile
      case Err(_) => [FetchJwt, FetchProfile]
      case Ok(p) => [FetchJwt, FetchProfile, FetchCredentials(p.id, domain)] + (if writeToFile then [PersistCredentials] else [])
  }

  /** The events of the inventory stage: the token and the profile only when the credentials
      stage did not acquire them, then the inventory and its persisting. */
  function InventoryStage(needCredentials: bool, needInventory: bool, profile: Result<UserProfile, SatoriError>): seq<Event> {
    if !needInventory then []
    else
      (if needCredentials then [] else [FetchJwt, FetchProfile])
      + (match profile
         case Err(_) => []
         case Ok(p) => [FetchInventory(p.accountId), PersistInventory])
  }

  lemma CountCons<T>(y: T, s: seq<T>, x: T)
    ensures Count([y] + s, x) == (if y == x then 1 else 0) + Count(s, x)
  {
    assert ([y] + s)[1..] == s;
  }

  lemma {:induction false} CountAbsent<T>(s: seq<T>, x: T)
    requires x !in s
    ensures Count(s, x) == 0
  {
    if |s| > 0 {
      CountAbsent(s[1..], x);
    }
  }

  /** Both caches serve: the plan is empty. */
  lemma PlanCacheHit(params: Login, env: Environment)
    requires !params.refresh && ReadCredentialsFromFile(env.credentialsFile, env.now).Some? && env.inventoryFile.Ok?
    ensures Plan(params, env) == []
  {
  }

  /** Refresh ignores both files: both caches are fetched and persisted (the credentials when
      asked). */
  lemma PlanRefresh(params: Login, env: Environment)
    requires params.refresh && env.profile.Ok?
    ensures Plan(params, env) ==
      [FetchJwt, FetchProfile, FetchCredentials(env.profile.value.id, params.domain)]
      + (if params.writeToFile then [PersistCredentials] else [])
      + [FetchInventory(env.profile.value.accountId), PersistInventory]
  {
  }

  /** Credentials needed, inventory loadable: one token, one profile and one credentials fetch,
      and no inventory fetch. */
  lemma PlanCredentialsOnly(params: Login, env: Environment)
    requires NeedsCredentials(params, env) && !NeedsInventory(params, env) && env.profile.Ok?
    ensures Plan(params, env) ==
      [FetchJwt, FetchProfile, FetchCredentials(env.profile.value.id, params.domain)]
      + (if params.writeToFile then [PersistCredentials] else [])
  {
  }

  /** Credentials fresh, inventory missing: one token, one profile and one inventory fetch, and no
      credentials fetch. */
  lemma PlanInventoryOnly(params: Login, env: Environment)
    requires !NeedsCredentials(params, env) && NeedsInventory(params, env) && env.profile.Ok?
    ensures Plan(params, env) == [FetchJwt, FetchProfile, FetchInventory(env.profile.value.accountId), PersistInventory]
  {
  }

  /** Credentials are persisted only when asked; a fetched inventory always is. */
  lemma PlanPersists(params: Login, env: Environment)
    ensures PersistCredentials in Plan(params, env) <==>
      env.profile.Ok? && NeedsCredentials(params, env) && params.writeToFile
    ensures PersistInventory in Plan(params, env) <==> env.profile.Ok? && NeedsInventory(params, env)
    ensures forall a :: FetchInventory(a) in Plan(params, env) ==> PersistInventory in Plan(params, env)
  {
  }

  /** A login acquires the token and the profile at most once, and fetches the inventory at
      most once. */
  lemma IdentityCount(e: Event)
    ensures Count([FetchJwt, FetchProfile], e) == (if e == FetchJwt || e == FetchProfile then 1 else 0)
  {
    assert [FetchJwt, FetchProfile] == [FetchJwt] + [FetchProfile];
    CountCons(FetchJwt, [FetchProfile], e);
    CountCons(FetchProfile, [], e);
  }

  lemma CredentialsStageCount(needCredentials: bool, profile: Result<UserProfile, SatoriError>,
                              domain: String, writeToFile: bool, e: Event)
    requires e == FetchJwt || e == FetchProfile || e.FetchInventory?
    ensures Count(CredentialsStage(needCredentials, profile, domain, writeToFile), e) ==
      (if needCredentials && (e == FetchJwt || e == FetchProfile) then 1 else 0)
  {
    IdentityCount(e);
    if needCredentials && profile.Ok? {
      var rest := [FetchCredentials(profile.value.id, domain)] + (if writeToFile then [PersistCredentials] else []);
      assert CredentialsStage(needCredentials, profile, domain, writeToFile) == [FetchJwt, FetchProfile] + rest;
      CountConcat([FetchJwt, FetchProfile], rest, e);
      CountAbsent(rest, e);
    }
  }

  lemma InventoryStageCount(needCredentials: bool, needInventory: bool, profile: Result<UserProfile, SatoriError>, e: Event)
    requires e == FetchJwt || e == FetchProfile || e.FetchInventory?
    ensures Count(InventoryStage(needCredentials, needInventory, profile), e) ==
      (if needInventory && !needCredentials && (e == FetchJwt || e == FetchProfile) then 1 else 0)
      + (if needInventory && profile.Ok? && e == FetchInventory(profile.value.accountId) then 1 else 0)
  {
    if needInventory {
      var identity: seq<Event> := if needCredentials then [] else [FetchJwt, FetchProfile];
      var tail := if profile.Ok? then [FetchInventory(profile.value.accountId), PersistInventory] else [];
      assert InventoryStage(needCredentials, needInventory, profile) == identity + tail;
      CountConcat(identity, tail, e);
      IdentityCount(e);
      if profile.Ok? {
        assert tail == [FetchInventory(profile.value.accountId)] + [PersistInventory];
        CountCons(FetchInventory(profile.value.accountId), [PersistInventory], e);
        CountCons(PersistInventory, [], e);
      }
    }
  }

  /** A login acquires the token and the profile at most once, and fetches the inventory at
      most once. */
  lemma PlanFetchesOnce(needCredentials: bool, needInventory: bool, profile: Result<UserProfile, SatoriError>,
                        domain: String, writeToFile: bool)
    ensures var plan := PlanOf(needCredentials, needInventory, profile, domain, writeToFile);
      && Count(plan, FetchJwt) <= 1
      && Count(plan, FetchProfile) <= 1
      && (profile.Ok? ==> Count(plan, FetchInventory(profile.value.accountId)) <= 1)
  {
    var first := CredentialsStage(needCredentials, profile, domain, writeToFile);
    var second := InventoryStage(needCredentials, needInventory, profile);
    CountConcat(first, second, FetchJwt);
    CredentialsStageCount(needCredentials, profile, domain, writeToFile, FetchJwt);
    InventoryStageCount(needCredentials, needInventory, profile, FetchJwt);
    CountConcat(first, second, FetchProfile);
    CredentialsStageCount(needCredentials, profile, domain, writeToFile, FetchProfile);
    InventoryStageCount(needCredentials, needInventory, profile, FetchProfile);
    if profile.Ok? {
      var e := FetchInventory(profile.value.accountId);
      CountConcat(first, second, e);
      CredentialsStageCount(needCredentials, profile, domain, writeToFile, e);
      InventoryStageCount(needCredentials, needInventory, profile, e);
    }
  }

  /** Every run of `run_with_file`, complete or cut short by an error, acquires the token and
      the profile at most once. */
  lemma RunFetchesOnce(log: seq<Event>, params: Login, env: Environment)
    requires log <= Plan(params, env)
    ensures Count(log, FetchJwt) <= 1 && Count(log, FetchProfile) <= 1
  {
    PlanFetchesOnce(NeedsCredentials(params, env), NeedsInventory(params, env), env.profile, params.domain, params.writeToFile);
    CountPrefix(log, Plan(params, env), FetchJwt);
    CountPrefix(log, Plan(params, env), FetchProfile);
  }

  /** The credentials stage goes through: the file serves, or the token, the profile, the
      credentials and (when asked) their persisting all succeed. */
  predicate CredentialsSucceed(params: Login, env: Environment) {
    || !NeedsCredentials(params, env)
    || (&& env.jwt.Ok? && env.profile.Ok?
        && env.credentials(env.profile.value.id, params.domain).Ok?
        && (params.writeToFile ==> WriteToFile(env.appFolder, env.directoriesCreated, env.credentialsWritten).Ok?))
  }

  /** The error of the first step of the credentials stage that fails. */
  function CredentialsFailure(params: Login, env: Environment): LoginError
    requires !CredentialsSucceed(params, env)
  {
    if env.jwt.Err? then env.jwt.error
    else if env.profile.Err? then SatoriConsole(env.profile.error)
    else if env.credentials(env.profile.value.id, params.domain).Err? then
      SatoriConsole(env.credentials(env.profile.value.id, params.domain).error)
    else WriteToFile(env.appFolder, env.directoriesCreated, env.credentialsWritten).error
  }

  /** The inventory stage goes through: the file serves, or the token, the profile, the
      inventory fetch and its persisting all succeed. */
  predicate InventorySucceed(params: Login, env: Environment) {
    || !NeedsInventory(params, env)
    || (env.jwt.Ok? && env.profile.Ok? && env.inventory.Ok? && env.inventoryWrite.Ok?)
  }

  /** The error of the first step of the inventory stage that fails. */
  function InventoryFailure(params: Login, env: Environment): LoginError
    requires !InventorySucceed(params, env)
  {
    if env.jwt.Err? then env.jwt.error
    else if env.profile.Err? then SatoriConsole(env.profile.error)
    else if env.inventory.Err? then Datastores(Console(env.inventory.error))
    else Datastores(env.inventoryWrite.error)
  }

  /** What the credentials stage hands to the inventory stage: the credentials, and the token
      and account id when it acquired them. */
  datatype Session = Session(credentials: DatabaseCredentials, jwt: Option<String>, accountId: Option<String>)

  /** The credentials stage of `run_with_file`: cached credentials when the file gives fresh
      ones, otherwise token, profile and credentials from the console. */
  method CredentialsStep(params: Login, env: Environment) returns (r: Result<Session, LoginError>, log: seq<Event>)
    ensures log <= CredentialsStage(NeedsCredentials(params, env), env.profile, params.domain, params.writeToFile)
    ensures r.Ok? ==> log == CredentialsStage(NeedsCredentials(params, env), env.profile, params.domain, params.writeToFile)
    ensures r.Ok? <==> CredentialsSucceed(params, env)
    ensures r.Err? ==> r.error == CredentialsFailure(params, env)
    ensures r.Ok? && !NeedsCredentials(params, env) ==> r.value == Session(env.credentialsFile.credentials, None, None)
    ensures r.Ok? && NeedsCredentials(params, env) ==>
      && env.jwt.Ok? && env.profile.Ok?
      && env.credentials(env.profile.value.id, params.domain).Ok?
      && r.value == Session(env.credentials(env.profile.value.id, params.domain).value, Some(env.jwt.value),
                            Some(env.profile.value.accountId))
  {
    log := [];
    var cached := if params.refresh then None else ReadCredentialsFromFile(env.credentialsFile, env.now);
    if cached.Some? {
      return Ok(Session(cached.value, None, None)), log;
    }
    log := log + [FetchJwt];
    if env.jwt.Err? {
      return Err(env.jwt.error), log;
    }
    log := log + [FetchProfile];
    if env.profile.Err? {
      return Err(SatoriConsole(env.profile.error)), log;
    }
    var profile := env.profile.value;
    // the helper takes the user id first; this call passes the domain first
    log := log + [FetchCredentials(profile.id, params.domain)];
    var fetched := env.credentials(profile.id, params.domain);
    if fetched.Err? {
      return Err(SatoriConsole(fetched.error)), log;
    }
    if params.writeToFile {
      log := log + [PersistCredentials];
      var written := WriteToFile(env.appFolder, env.directoriesCreated, env.credentialsWritten);
      if written.Err? {
        return Err(written.error), log;
      }
    }
    return Ok(Session(fetched.value, Some(env.jwt.value), Some(profile.accountId))), log;
  }

  /** The inventory stage of `run_with_file`: the cached inventory when the file loads (its
      account id is not compared with anything), otherwise the inventory from the console, with
      the token and the account id of the credentials stage reused when it acquired them. */
  method InventoryStep(params: Login, env: Environment, session: Session) returns (r: Result<DatastoresInfo, LoginError>, log: seq<Event>)
    requires NeedsCredentials(params, env) ==>
      && env.jwt.Ok? && env.profile.Ok?
      && session.jwt == Some(env.jwt.value) && session.accountId == Some(env.profile.value.accountId)
    requires !NeedsCredentials(params, env) ==> session.jwt.None? && session.accountId.None?
    ensures log <= InventoryStage(NeedsCredentials(params, env), NeedsInventory(params, env), env.profile)
    ensures r.Ok? ==> log == InventoryStage(NeedsCredentials(params, env), NeedsInventory(params, env), env.profile)
    ensures r.Ok? <==> InventorySucceed(params, env)
    ensures r.Err? ==> r.error == InventoryFailure(params, env)
    ensures r.Ok? && !NeedsInventory(params, env) ==> r.value == env.inventoryFile.value
    ensures r.Ok? && NeedsInventory(params, env) ==>
      && env.profile.Ok? && env.inventory.Ok?
      && r.value == NewFromConsoleResponse(env.profile.value.accountId, env.inventory.value)
  {
    log := [];
    var stored := if params.refresh then None else if env.inventoryFile.Ok? then Some(env.inventoryFile.value) else None;
    if stored.Some? {
      return Ok(stored.value), log;
    }
    if session.jwt.None? {
      log := log + [FetchJwt];
      if env.jwt.Err? {
        return Err(env.jwt.error), log;
      }
    }
    var accountId := session.accountId;
    if accountId.None? {
      log := log + [FetchProfile];
      if env.profile.Err? {
        return Err(SatoriConsole(env.profile.error)), log;
      }
      accountId := Some(env.profile.value.accountId);
    }
    log := log + [FetchInventory(accountId.value)];
    if env.inventory.Err? {
      return Err(Datastores(Console(env.inventory.error))), log;
    }
    var info := NewFromConsoleResponse(accountId.value, env.inventory.value);
    log := log + [PersistInventory];
    if env.inventoryWrite.Err? {
      return Err(Datastores(env.inventoryWrite.error)), log;
    }
    return Ok(info), log;
  }

  /** `run_with_file`. A failure stops the run: the events so far are a prefix of the plan. */
  method RunWithFile(params: Login, env: Environment)
    returns (r: Result<(DatabaseCredentials, DatastoresInfo), LoginError>, log: seq<Event>)
    ensures env.appFolder.Err? ==> r == Err(HomeFolderError(env.appFolder.error)) && log == []
    ensures log <= Plan(params, env)
    ensures r.Ok? ==> log == Plan(params, env)
    ensures r.Ok? <==> env.appFolder.Ok? && CredentialsSucceed(params, env) && InventorySucceed(params, env)
    ensures r.Err? && env.appFolder.Ok? ==>
      r.error == if !CredentialsSucceed(params, env) then CredentialsFailure(params, env) else InventoryFailure(params, env)
    // a loadable inventory is returned as cached, whatever account the fresh profile names
    ensures r.Ok? && !NeedsInventory(params, env) ==> r.value.1 == env.inventoryFile.value
    ensures r.Ok? && !NeedsCredentials(params, env) ==> r.value.0 == env.credentialsFile.credentials
    ensures r.Ok? && NeedsCredentials(params, env) ==>
      && env.profile.Ok?
      && env.credentials(env.profile.value.id, params.domain).Ok?
      && r.value.0 == env.credentials(env.profile.value.id, params.domain).value
    ensures r.Ok? && NeedsInventory(params, env) ==>
      && env.profile.Ok? && env.inventory.Ok?
      && r.value.1 == NewFromConsoleResponse(env.profile.value.accountId, env.inventory.value)
  {
    if env.appFolder.Err? {
      return Err(HomeFolderError(env.appFolder.error)), [];
    }
    var first := CredentialsStage(NeedsCredentials(params, env), env.profile, params.domain, params.writeToFile);
    var second := InventoryStage(NeedsCredentials(params, env), NeedsInventory(params, env), env.profile);
    assert Plan(params, env) == first + second;
    var session, credentialsLog := CredentialsStep(params, env);
    if session.Err? {
      return Err(session.error), credentialsLog;
    }
    var inventory, inventoryLog := InventoryStep(params, env, session.value);
    log := credentialsLog + inventoryLog;
    if inventory.Err? {
      return Err(inventory.error), log;
    }
    return Ok((session.value.credentials, inventory.value)), log;
  }

  /** A credentials file that cannot be read or parsed, or whose credentials expire within
      fifteen minutes, is not an error: it makes the run fetch fresh credentials. */
  lemma UnusableCacheFetches(params: Login, env: Environment)
    requires || env.credentialsFile.Unreadable? || env.credentialsFile.Unparsable?
             || (env.credentialsFile.Parsed? && ExpiresSoon(FromDatabaseCredentials(env.credentialsFile.credentials), env.now))
    requires env.profile.Ok?
    ensures NeedsCredentials(params, env)
    ensures FetchCredentials(env.profile.value.id, params.domain) in Plan(params, env)
  {
    if env.credentialsFile.Parsed? {
      ExpiresSoonIff(FromDatabaseCredentials(env.credentialsFile.credentials), env.now);
    }
    assert Plan(params, env)[2] == FetchCredentials(env.profile.value.id, params.domain);
  }

  /** When every call and write answers successfully, `run_with_file` succeeds, whatever the
      two cache files hold. */
  lemma CallsSucceedRunSucceeds(params: Login, env: Environment)
    requires env.appFolder.Ok? && env.jwt.Ok? && env.profile.Ok?
    requires env.credentials(env.profile.value.id, params.domain).Ok?
    requires env.directoriesCreated && env.credentialsWritten
    requires env.inventory.Ok? && env.inventoryWrite.Ok?
    ensures CredentialsSucceed(params, env) && InventorySucceed(params, env)
  {
  }

  // ---------------------------------------------------------------------------------------------
  // The login command

  /** `refresh_datastores`: keep the cached inventory only when not refreshing, the file loads
      and it belongs to the profile's account. */
  function RefreshDatastores(params: Login, inventoryFile: Result<DatastoresInfo, DatastoresError>, profile: UserProfile): (r: bool)
    ensures !r <==> !params.refresh && inventoryFile.Ok? && inventoryFile.value.accountId == profile.accountId
  {
    if params.refresh then true
    else
      match inventoryFile
      case Ok(info) => info.accountId != profile.accountId
      case Err(_) => true
  }

  /** `run_with_file` keeps a loadable inventory even when the profile it just fetched names
      another account; the login command refreshes it in the same situation. */
  lemma InventoryAccountCheckedOnlyByLogin(params: Login, env: Environment)
    requires !params.refresh && env.inventoryFile.Ok? && env.profile.Ok?
    requires env.inventoryFile.value.accountId != env.profile.value.accountId
    ensures !NeedsInventory(params, env)
    ensures RefreshDatastores(params, env.inventoryFile, env.profile.value)
  {
  }

  /** The login command goes through: the token, the profile, the credentials and their
      persisting when asked, and, when `refresh_datastores` says so, the inventory fetch and its
      persisting. */
  predicate LoginSucceeds(params: Login, env: Environment) {
    && env.jwt.Ok? && env.profile.Ok?
    && env.credentials(params.domain, env.profile.value.id).Ok?
    && (params.writeToFile ==> WriteToFile(env.appFolder, env.directoriesCreated, env.credentialsWritten).Ok?)
    && (RefreshDatastores(params, env.inventoryFile, env.profile.value) ==> env.inventory.Ok? && env.inventoryWrite.Ok?)
  }

  /** The error of the first step of the login command that fails. */
  function LoginFailure(params: Login, env: Environment): LoginError
    requires !LoginSucceeds(params, env)
  {
    if env.jwt.Err? then env.jwt.error
    else if env.profile.Err? then SatoriConsole(env.profile.error)
    else if env.credentials(params.domain, env.profile.value.id).Err? then
      SatoriConsole(env.credentials(params.domain, env.profile.value.id).error)
    else if params.writeToFile && WriteToFile(env.appFolder, env.directoriesCreated, env.credentialsWritten).Err? then
      WriteToFile(env.appFolder, env.directoriesCreated, env.credentialsWritten).error
    else if env.inventory.Err? then Datastores(Console(env.inventory.error))
    else Datastores(env.inventoryWrite.error)
  }

  /** When every call and write answers successfully, the login command succeeds, whatever
      the inventory file holds. */
  lemma CallsSucceedLoginSucceeds(params: Login, env: Environment)
    requires env.appFolder.Ok? && env.jwt.Ok? && env.profile.Ok?
    requires env.credentials(params.domain, env.profile.value.id).Ok?
    requires env.directoriesCreated && env.credentialsWritten
    requires env.inventory.Ok? && env.inventoryWrite.Ok?
    ensures LoginSucceeds(params, env)
  {
  }

  /** `run`, the login command: always the token, the profile and the credentials (with the
      arguments in the helper's order); the credentials are persisted or printed; the inventory
      is fetched and persisted when `refresh_datastores` says so. */
  method Run(params: Login, env: Environment) returns (r: Result<(), LoginError>, log: seq<Event>)
    ensures r.Ok? <==> LoginSucceeds(params, env)
    ensures r.Err? ==> r.error == LoginFailure(params, env)
    ensures |log| >= 1 && log[0] == FetchJwt
    ensures env.jwt.Err? ==> r == Err(env.jwt.error) && log == [FetchJwt]
    ensures env.jwt.Ok? && env.profile.Err? ==> r == Err(SatoriConsole(env.profile.error)) && log == [FetchJwt, FetchProfile]
    ensures env.jwt.Ok? && env.profile.Ok? ==> |log| >= 3 && log[..3] == [FetchJwt, FetchProfile, FetchCredentials(params.domain, env.profile.value.id)]
    ensures r.Ok? ==>
      && env.jwt.Ok? && env.profile.Ok? && env.credentials(params.domain, env.profile.value.id).Ok?
      && var credentials := env.credentials(params.domain, env.profile.value.id).value;
         var refresh := RefreshDatastores(params, env.inventoryFile, env.profile.value);
         log == [FetchJwt, FetchProfile, FetchCredentials(params.domain, env.profile.value.id)]
                + (if params.writeToFile then [PersistCredentials]
                   else [PrintCredentials(CredentialsAsString(credentials, params.format, env.render))])
                + (if refresh then [FetchInventory(env.profile.value.accountId), PersistInventory] else [])
    ensures r.Ok? ==> (PersistCredentials in log <==> params.writeToFile)
    ensures r.Ok? && env.profile.Ok? ==>
      (PersistInventory in log <==> RefreshDatastores(params, env.inventoryFile, env.profile.value))
  {
    log := [FetchJwt];
    if env.jwt.Err? {
      return Err(env.jwt.error), log;
    }
    log := log + [FetchProfile];
    if env.profile.Err? {
      return Err(SatoriConsole(env.profile.error)), log;
    }
    var profile := env.profile.value;
    log := log + [FetchCredentials(params.domain, profile.id)];
    ghost var head := log;
    var fetched := env.credentials(params.domain, profile.id);
    if fetched.Err? {
      return Err(SatoriConsole(fetched.error)), log;
    }
    if params.writeToFile {
      log := log + [PersistCredentials];
      var written := WriteToFile(env.appFolder, env.directoriesCreated, env.credentialsWritten);
      if written.Err? {
        assert log[..3] == head;
        return Err(written.error), log;
      }
    } else {
      log := log + [PrintCredentials(CredentialsAsString(fetched.value, params.format, env.render))];
    }
    if RefreshDatastores(params, env.inventoryFile, profile) {
      log := log + [FetchInventory(profile.accountId)];
      if env.inventory.Err? {
        assert log[..3] == head;
        return Err(Datastores(Console(env.inventory.error))), log;
      }
      log := log + [PersistInventory];
      if env.inventoryWrite.Err? {
        assert log[..3] == head;
        return Err(Datastores(env.inventoryWrite.error)), log;
      }
    }
    assert log[..3] == head;
    return Ok(()), log;
  }
}

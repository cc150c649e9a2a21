/**
 * Requests to the Satori console and the handling of their responses
 * (src/helpers/satori_console/api.rs). Sending a request is an oracle
 * `send` that yields either a transport error or a response whose body
 * either decodes as JSON of the expected shape or does not.
 */
module ConsoleApi {
  import opened Wrappers
  import opened Strings
  import opened ConsoleErrors

  const OK: nat := 200
  const CREATED: nat := 201

  // Header names, lower-case as `reqwest::header` spells them.
  const ACCEPT: String := "accept"
  const USER_AGENT: String := "user-agent"
  const CONTENT_LENGTH: String := "content-length"
  const CONTENT_TYPE: String := "content-type"
  const AUTHORIZATION: String := "authorization"

  /** The credentials the console issues. `expiredAt` is an instant in nanoseconds since the
      epoch (the console sends milliseconds; the JSON decoding is not modelled). */
  datatype DatabaseCredentials = DatabaseCredentials(username: String, password: String, expiredAt: int)

  datatype OauthResponse = OauthResponse(accessToken: String, tokenType: String, expiresIn: nat)

  /** The caller's profile. The revision of the profile type in the source carries only `id`;
      the login flow reads `account_id` from it as well. */
  datatype UserProfile = UserProfile(id: String, accountId: String)

  datatype HttpMethod = Get | Put | Post

  /** An address with its query parameters, in order. */
  datatype Url = Url(address: String, query: seq<(String, String)>)

  datatype Request = Request(verb: HttpMethod, url: Url, headers: map<String, String>)

  /** A response: its status and its body decoded as `T`, or `None` when decoding failed. */
  datatype Response<T> = Response(status: nat, body: Option<T>)

  /** `handle_status_code` */
  function HandleStatusCode(expected: nat, actual: nat): (r: Result<(), SatoriError>)
    ensures r.Ok? <==> expected == actual
    ensures r.Err? ==> r.error == Status(actual)
  {
    if expected != actual then Err(Status(actual)) else Ok(())
  }

  /** What every call does with what `send` yields: a transport error is `Reqwest`
      (the `?` on `send` converts through `#[from]`), an unexpected status is `Status`,
      a body that does not decode is `Json`. */
  function Receive<T>(sent: Result<Response<T>, ReqwestError>, expected: nat): (r: Result<T, SatoriError>)
    ensures r.Ok? <==> sent.Ok? && sent.value.status == expected && sent.value.body.Some?
    ensures r.Ok? ==> r.value == sent.value.body.value
    ensures sent.Err? ==> r == Err(Reqwest(sent.error))
    ensures sent.Ok? && sent.value.status != expected ==> r == Err(Status(sent.value.status))
    ensures sent.Ok? && sent.value.status == expected && sent.value.body.None? ==> r == Err(Json)
  {
    match sent
    case Err(e) => Err(Reqwest(e))
    case Ok(resp) =>
      match HandleStatusCode(expected, resp.status)
      case Err(e) => Err(e)
      case Ok(_) => if resp.body.Some? then Ok(resp.body.value) else Err(Json)
  }

  function UserAgent(clientId: String, version: String): String {
    "satori-cli/" + version + "/" + clientId
  }

  /** The headers `get_headers_no_jwt` builds. */
  function BaseHeaders(clientId: String, version: String): map<String, String> {
    map[ACCEPT := "application/json", USER_AGENT := UserAgent(clientId, version), CONTENT_LENGTH := "0"]
  }

  /** The headers `get_headers_with_jwt` builds. */
  function JwtHeaders(clientId: String, version: String, jwt: String): map<String, String> {
    BaseHeaders(clientId, version)[AUTHORIZATION := "Bearer " + jwt]
  }

  /** `get_headers_no_jwt`: three successive inserts into an empty header map. */
  method GetHeadersNoJwt(clientId: String, version: String) returns (headers: map<String, String>)
    ensures headers.Keys == {ACCEPT, USER_AGENT, CONTENT_LENGTH}
    ensures headers[ACCEPT] == "application/json"
    ensures headers[USER_AGENT] == "satori-cli/" + version + "/" + clientId
    ensures headers[CONTENT_LENGTH] == "0"
    ensures headers == BaseHeaders(clientId, version)
  {
    headers := map[];
    headers := headers[ACCEPT := "application/json"];
    headers := headers[USER_AGENT := "satori-cli/" + version + "/" + clientId];
    headers := headers[CONTENT_LENGTH := "0"];
  }

  /** `get_headers_with_jwt`: the base headers plus the bearer authorization, nothing else changed. */
  method GetHeadersWithJwt(clientId: String, version: String, jwt: String) returns (headers: map<String, String>)
    ensures headers.Keys == BaseHeaders(clientId, version).Keys + {AUTHORIZATION}
    ensures headers[AUTHORIZATION] == "Bearer " + jwt
    ensures forall k :: k in BaseHeaders(clientId, version) ==> headers[k] == BaseHeaders(clientId, version)[k]
    ensures headers == JwtHeaders(clientId, version, jwt)
  {
    headers := GetHeadersNoJwt(clientId, version);
    headers := headers[AUTHORIZATION := "Bearer " + jwt];
  }

  /** The request `generate_token_oauth` posts. */
  function TokenRequest(domain: String, code: String, codeVerifier: String, clientId: String, version: String): (req: Request)
    ensures req.verb == Post
    ensures req.url.address == domain + "/api/oauth/token"
    ensures req.url.query == [("grant_type", "authorization_code"), ("code", code),
                              ("client_id", clientId), ("code_verifier", codeVerifier)]
    ensures req.headers.Keys == BaseHeaders(clientId, version).Keys + {CONTENT_TYPE}
    ensures req.headers[CONTENT_TYPE] == "application/x-www-form-urlencoded"
  {
    Request(
      Post,
      Url(domain + "/api/oauth/token",
          [("grant_type", "authorization_code"), ("code", code), ("client_id", clientId), ("code_verifier", codeVerifier)]),
      BaseHeaders(clientId, version)[CONTENT_TYPE := "application/x-www-form-urlencoded"])
  }

  /** The request `get_database_credentials` puts. */
  function CredentialsRequest(domain: String, clientId: String, jwt: String, userId: String, version: String): (req: Request)
    ensures req.verb == Put && req.url == Url(domain + "/api/users/" + userId + "/database-credentials", [])
    ensures req.headers == JwtHeaders(clientId, version, jwt)
  {
    Request(Put, Url(domain + "/api/users/" + userId + "/database-credentials", []), JwtHeaders(clientId, version, jwt))
  }

  /** The request `get_user_info` gets. */
  function ProfileRequest(domain: String, clientId: String, jwt: String, version: String): (req: Request)
    ensures req.verb == Get && req.url == Url(domain + "/api/users/me/profile", [])
    ensures req.headers == JwtHeaders(clientId, version, jwt)
  {
    Request(Get, Url(domain + "/api/users/me/profile", []), JwtHeaders(clientId, version, jwt))
  }

  /** `generate_token_oauth`: the token exchange succeeds only with status 201 CREATED. */
  function GenerateTokenOauth(domain: String, code: String, codeVerifier: String, clientId: String, version: String,
                              send: Request -> Result<Response<OauthResponse>, ReqwestError>): (r: Result<OauthResponse, SatoriError>)
    ensures var sent := send(TokenRequest(domain, code, codeVerifier, clientId, version));
      && (r.Ok? <==> sent.Ok? && sent.value.status == CREATED && sent.value.body.Some?)
      && (r.Ok? ==> r.value == sent.value.body.value)
      && (sent.Err? ==> r == Err(Reqwest(sent.error)))
      && (sent.Ok? && sent.value.status != CREATED ==> r == Err(Status(sent.value.status)))
      && (sent.Ok? && sent.value.status == CREATED && sent.value.body.None? ==> r == Err(Json))
  {
    Receive(send(TokenRequest(domain, code, codeVerifier, clientId, version)), CREATED)
  }

  /** `get_database_credentials`: succeeds only with status 200 OK. */
  function GetDatabaseCredentials(domain: String, clientId: String, jwt: String, userId: String, version: String,
                                  send: Request -> Result<Response<DatabaseCredentials>, ReqwestError>): (r: Result<DatabaseCredentials, SatoriError>)
    ensures var sent := send(CredentialsRequest(domain, clientId, jwt, userId, version));
      && (r.Ok? <==> sent.Ok? && sent.value.status == OK && sent.value.body.Some?)
      && (r.Ok? ==> r.value == sent.value.body.value)
      && (sent.Err? ==> r == Err(Reqwest(sent.error)))
      && (sent.Ok? && sent.value.status != OK ==> r == Err(Status(sent.value.status)))
      && (sent.Ok? && sent.value.status == OK && sent.value.body.None? ==> r == Err(Json))
  {
    Receive(send(CredentialsRequest(domain, clientId, jwt, userId, version)), OK)
  }

  /** `get_user_info`: succeeds only with status 200 OK. */
  function GetUserInfo(domain: String, clientId: String, jwt: String, version: String,
                       send: Request -> Result<Response<UserProfile>, ReqwestError>): (r: Result<UserProfile, SatoriError>)
    ensures var sent := send(ProfileRequest(domain, clientId, jwt, version));
      && (r.Ok? <==> sent.Ok? && sent.value.status == OK && sent.value.body.Some?)
      && (r.Ok? ==> r.value == sent.value.body.value)
      && (sent.Err? ==> r == Err(Reqwest(sent.error)))
      && (sent.Ok? && sent.value.status != OK ==> r == Err(Status(sent.value.status)))
      && (sent.Ok? && sent.value.status == OK && sent.value.body.None? ==> r == Err(Json))
  {
    Receive(send(ProfileRequest(domain, clientId, jwt, version)), OK)
  }
}

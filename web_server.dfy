/**
 * The OAuth callback handler (src/login/web_server.rs) over the three
 * write-once slots of src/login/data.rs: the expected state, the code
 * verifier and the JWT. Each slot is a `OnceLock`; the token exchange is
 * the console call of ConsoleApi with its transport as an oracle.
 */
module WebServer {
  import opened Wrappers
  import opened Strings
  import opened ConsoleErrors
  import opened ConsoleApi
  import LoginData

  const FINISH_URI: String := "oauth/authorize/finish"

  datatype WebServerError = ExpectedStateNotSet | StateNotMatch | CodeVerifierNotSet

  /** The query parameters of the callback request. */
  datatype OauthQueryParams = OauthQueryParams(state: String, code: String)

  /** What the handler produces: a redirect, a rejection, or a panic from an `unwrap`. */
  datatype Reply = Redirect(location: String) | Rejected(error: WebServerError) | Panicked

  /** A `OnceLock<String>`: empty until the first `set`, which is the only one that succeeds. */
  class OnceLock {
    var value: Option<String>

    constructor()
      ensures value.None?
    {
      value := None;
    }

    /** `OnceLock::set`: fills an empty slot; on a filled slot it fails and changes nothing. */
    method Set(v: String) returns (ok: bool)
      modifies this
      ensures ok <==> old(value).None?
      ensures value == (if ok then Some(v) else old(value))
    {
      if value.None? {
        value := Some(v);
        ok := true;
      } else {
        ok := false;
      }
    }
  }

  /** `oauth_response`. The checks run in order: expected state set, state equal, verifier set.
      Only a request that passes all three reaches the exchange; its `unwrap` panics on an
      exchange error, and the `unwrap` of `JWT.set` panics when the JWT slot is already filled. */
  method OauthResponse(expectedState: OnceLock, codeVerifier: OnceLock, jwt: OnceLock,
                       params: OauthQueryParams, domain: String, version: String,
                       send: Request -> Result<Response<ConsoleApi.OauthResponse>, ReqwestError>)
    returns (reply: Reply)
    requires jwt != expectedState && jwt != codeVerifier
    modifies jwt
    ensures old(expectedState.value).None? ==> reply == Rejected(ExpectedStateNotSet)
    ensures old(expectedState.value).Some? && old(expectedState.value).value != params.state ==>
      reply == Rejected(StateNotMatch)
    ensures old(expectedState.value) == Some(params.state) && old(codeVerifier.value).None? ==>
      reply == Rejected(CodeVerifierNotSet)
    ensures reply.Rejected? ==> jwt.value == old(jwt.value)
    ensures old(expectedState.value) == Some(params.state) && old(codeVerifier.value).Some? ==>
      var exchanged := GenerateTokenOauth(domain, params.code, old(codeVerifier.value).value,
                                          LoginData.CLIENT_ID, version, send);
      && (exchanged.Err? ==> reply == Panicked && jwt.value == old(jwt.value))
      && (exchanged.Ok? && old(jwt.value).Some? ==> reply == Panicked && jwt.value == old(jwt.value))
      && (exchanged.Ok? && old(jwt.value).None? ==>
            reply == Redirect(domain + "/" + FINISH_URI) && jwt.value == Some(exchanged.value.accessToken))
    // The JWT slot changes only from empty, and only for a request carrying the expected state.
    ensures jwt.value != old(jwt.value) ==>
      old(jwt.value).None? && old(expectedState.value) == Some(params.state) && old(codeVerifier.value).Some?
    ensures reply.Redirect? <==> jwt.value != old(jwt.value)
  {
    if expectedState.value.None? {
      return Rejected(ExpectedStateNotSet);
    }
    if expectedState.value.value != params.state {
      return Rejected(StateNotMatch);
    }
    if codeVerifier.value.None? {
      return Rejected(CodeVerifierNotSet);
    }
    var exchanged := GenerateTokenOauth(domain, params.code, codeVerifier.value.value, LoginData.CLIENT_ID, version, send);
    if exchanged.Err? {
      return Panicked;
    }
    var ok := jwt.Set(exchanged.value.accessToken);
    if !ok {
      return Panicked;
    }
    reply := Redirect(domain + "/" + FINISH_URI);
  }

  /** A callback with the wrong state is rejected and leaves the JWT slot empty, so a later
      callback with the right state still fills it. */
  method MismatchThenMatch(expectedState: OnceLock, codeVerifier: OnceLock, jwt: OnceLock,
                           wrong: OauthQueryParams, right: OauthQueryParams, domain: String, version: String,
                           send: Request -> Result<Response<ConsoleApi.OauthResponse>, ReqwestError>)
    returns (first: Reply, second: Reply)
    requires jwt != expectedState && jwt != codeVerifier
    requires expectedState.value == Some(right.state) && wrong.state != right.state
    requires codeVerifier.value.Some? && jwt.value.None?
    requires GenerateTokenOauth(domain, right.code, codeVerifier.value.value, LoginData.CLIENT_ID, version, send).Ok?
    modifies jwt
    ensures first == Rejected(StateNotMatch)
    ensures second == Redirect(domain + "/" + FINISH_URI)
    ensures jwt.value == Some(GenerateTokenOauth(domain, right.code, old(codeVerifier.value).value,
                                                 LoginData.CLIENT_ID, version, send).value.accessToken)
  {
    first := OauthResponse(expectedState, codeVerifier, jwt, wrong, domain, version, send);
    second := OauthResponse(expectedState, codeVerifier, jwt, right, domain, version, send);
  }
}

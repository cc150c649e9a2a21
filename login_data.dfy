/**
 * Login parameters and cached credentials (src/login/data.rs).
 * Instants are integers counting nanoseconds since the epoch (UTC); the
 * current time is a parameter.
 */
module LoginData {
  import opened Strings
  import opened ConsoleApi

  const CLIENT_ID: String := "satori-cli-83740771-1"
  const DEFAULT_DOMAIN: String := "https://app.satoricyber.com"

  /** Credentials within this many minutes of expiry are treated as expired. */
  const EXPIRATION_TIME_MINUTES: int := 15

  const NANOS_PER_SECOND: int := 1_000_000_000
  const SECONDS_PER_MINUTE: int := 60

  datatype CredentialsFormat = Json | Yaml | Csv

  /** The parameters of a login, as the builder fills them. */
  datatype Login = Login(
    writeToFile: bool,
    domain: String,
    port: nat,
    openBrowser: bool,
    format: CredentialsFormat,
    refresh: bool,
    invalidCert: bool)

  /** `LoginBuilder::default().build()` */
  function DefaultLogin(): (l: Login)
    ensures l.writeToFile && l.domain == DEFAULT_DOMAIN && l.port == 0
    ensures l.openBrowser && l.format == Csv && !l.refresh && !l.invalidCert
  {
    Login(true, DEFAULT_DOMAIN, 0, true, Csv, false, false)
  }

  datatype Credentials = Credentials(username: String, password: String, expiresAt: int)

  /** `Credentials::from(DatabaseCredentials)` */
  function FromDatabaseCredentials(value: DatabaseCredentials): (c: Credentials)
    ensures c.username == value.username && c.password == value.password && c.expiresAt == value.expiredAt
  {
    Credentials(value.username, value.password, value.expiredAt)
  }

  /** Integer division rounding toward zero, as Rust's `/` on `i64`. */
  function TruncDiv(a: int, b: int): (q: int)
    requires b > 0
    ensures a >= 0 ==> q == a / b
    ensures a < 0 ==> q <= 0
  {
    if a >= 0 then a / b else -((-a) / b)
  }

  /** `chrono::Duration::num_minutes` of a duration of `d` nanoseconds: whole seconds, then
      whole minutes, each truncated toward zero. */
  function NumMinutes(d: int): int {
    TruncDiv(TruncDiv(d, NANOS_PER_SECOND), SECONDS_PER_MINUTE)
  }

  /** `Credentials::expires_soon`, with the current time as a parameter. */
  predicate ExpiresSoon(c: Credentials, now: int) {
    NumMinutes(c.expiresAt - now) < EXPIRATION_TIME_MINUTES
  }

  /** Credentials expire soon exactly when less than fifteen minutes remain. */
  lemma ExpiresSoonIff(c: Credentials, now: int)
    ensures ExpiresSoon(c, now) <==> c.expiresAt - now < EXPIRATION_TIME_MINUTES * SECONDS_PER_MINUTE * NANOS_PER_SECOND
  {
    var d := c.expiresAt - now;
    if d >= 0 {
      var s := d / NANOS_PER_SECOND;
      assert NumMinutes(d) == s / SECONDS_PER_MINUTE;
      if d < 900 * NANOS_PER_SECOND {
        assert s < 900;
      } else {
        assert s >= 900;
      }
    } else {
      assert TruncDiv(d, NANOS_PER_SECOND) <= 0;
    }
  }

  /** Exactly fifteen minutes left is not "soon"; a second less is; credentials that expired
      two hours ago are, and credentials with two hours left are not. */
  lemma ExpiryBoundaries(c: Credentials)
    ensures !ExpiresSoon(c, c.expiresAt - 15 * 60 * NANOS_PER_SECOND)
    ensures ExpiresSoon(c, c.expiresAt - (14 * 60 + 59) * NANOS_PER_SECOND)
    ensures ExpiresSoon(c, c.expiresAt + 120 * 60 * NANOS_PER_SECOND)
    ensures !ExpiresSoon(c, c.expiresAt - 120 * 60 * NANOS_PER_SECOND)
  {
    ExpiresSoonIff(c, c.expiresAt - 15 * 60 * NANOS_PER_SECOND);
    ExpiresSoonIff(c, c.expiresAt - (14 * 60 + 59) * NANOS_PER_SECOND);
    ExpiresSoonIff(c, c.expiresAt + 120 * 60 * NANOS_PER_SECOND);
    ExpiresSoonIff(c, c.expiresAt - 120 * 60 * NANOS_PER_SECOND);
  }
}

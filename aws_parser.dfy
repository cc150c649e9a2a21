/**
 * Where the AWS tool finds its files (src/cli/parsers/tools/aws.rs): an
 * environment variable names the file, or else it sits at a fixed place
 * under the home directory. The environment is a map from variable names to
 * values; a variable that is unset (or not valid Unicode) is absent.
 */
module AwsParser {
  import opened Wrappers
  import opened Strings
  import opened Paths
  import opened CliErrors
  import LoginData

  const ENV_CREDENTIALS_FILE_PATH: String := "AWS_SHARED_CREDENTIALS_FILE"
  const ENV_CONFIG_FILE_PATH: String := "AWS_CONFIG_FILE"
  const AWS_CREDENTIALS_FILE: String := ".aws/credentials"
  const AWS_CONFIG_FILE: String := ".aws/config"

  type Environment = map<String, String>

  /** The parameters of the AWS tool. */
  datatype Aws = Aws(login: LoginData.Login, credentialsPath: Path, configPath: Path)

  /** `get_from_env_or_default`: the variable's value verbatim when it is set; otherwise the
      home directory joined with `default`, or the error of the home lookup. */
  function GetFromEnvOrDefault(env: Environment, envVar: String, default: String, home: HomeDir): (r: Result<Path, CliError>)
    requires |default| > 0 && default[0] != '/'
    ensures envVar in env ==> r.Ok? && ToString(r.value) == env[envVar]
    ensures envVar !in env ==> (r.Ok? <==> home.Found?)
    ensures envVar !in env && home.Found? && !IsEmpty(home.path) && !EndsWithSeparator(home.path) ==>
      ToString(r.value) == ToString(home.path) + "/" + default
    ensures envVar !in env && home.NotFound? ==> r == Err(HomeDirNotFound)
    ensures envVar !in env && home.LookupFailed? ==> r == Err(HomeDirError)
  {
    if envVar in env then
      ToStringFromString(env[envVar]);
      Ok(FromString(env[envVar]))
    else
      match home
      case Found(dir) => Ok(JoinRel(dir, default))
      case NotFound => Err(HomeDirNotFound)
      case LookupFailed => Err(HomeDirError)
  }

  /** `get_credentials_path` */
  function GetCredentialsPath(env: Environment, home: HomeDir): (r: Result<Path, CliError>)
    ensures ENV_CREDENTIALS_FILE_PATH in env ==> r.Ok? && ToString(r.value) == env[ENV_CREDENTIALS_FILE_PATH]
    ensures ENV_CREDENTIALS_FILE_PATH !in env && home.Found? ==> r == Ok(JoinRel(home.path, AWS_CREDENTIALS_FILE))
    ensures ENV_CREDENTIALS_FILE_PATH !in env && !home.Found? ==> r.Err?
  {
    GetFromEnvOrDefault(env, ENV_CREDENTIALS_FILE_PATH, AWS_CREDENTIALS_FILE, home)
  }

  /** `get_config_path` */
  function GetConfigPath(env: Environment, home: HomeDir): (r: Result<Path, CliError>)
    ensures ENV_CONFIG_FILE_PATH in env ==> r.Ok? && ToString(r.value) == env[ENV_CONFIG_FILE_PATH]
    ensures ENV_CONFIG_FILE_PATH !in env && home.Found? ==> r == Ok(JoinRel(home.path, AWS_CONFIG_FILE))
    ensures ENV_CONFIG_FILE_PATH !in env && !home.Found? ==> r.Err?
  {
    GetFromEnvOrDefault(env, ENV_CONFIG_FILE_PATH, AWS_CONFIG_FILE, home)
  }

  /** A relative default `dir/name` splits into its two components. */
  lemma SplitDefault(dir: String, name: String)
    requires '/' !in dir && '/' !in name
    ensures Split(dir + "/" + name, '/') == [dir, name]
  {
    SplitPrefix(dir, name, '/');
  }

  /** The default credentials file is named `credentials`, in `.aws` under the home directory. */
  lemma DefaultCredentialsPath(home: Path)
    requires !IsEmpty(home) && !EndsWithSeparator(home)
    ensures EndsWith(JoinRel(home, AWS_CREDENTIALS_FILE), "credentials")
    ensures JoinRel(home, AWS_CREDENTIALS_FILE).parts == home.parts + [".aws", "credentials"]
  {
    var dir, name := ".aws", "credentials";
    assert '/' !in dir && '/' !in name;
    assert AWS_CREDENTIALS_FILE == dir + "/" + name;
    SplitDefault(dir, name);
    assert Split(AWS_CREDENTIALS_FILE, '/') == [dir, name];
  }

  /** The default config file is named `config`, in `.aws` under the home directory. */
  lemma DefaultConfigPath(home: Path)
    requires !IsEmpty(home) && !EndsWithSeparator(home)
    ensures EndsWith(JoinRel(home, AWS_CONFIG_FILE), "config")
    ensures JoinRel(home, AWS_CONFIG_FILE).parts == home.parts + [".aws", "config"]
  {
    var dir, name := ".aws", "config";
    assert '/' !in dir && '/' !in name;
    assert AWS_CONFIG_FILE == dir + "/" + name;
    SplitDefault(dir, name);
    assert Split(AWS_CONFIG_FILE, '/') == [dir, name];
  }

  /** `build`: the credentials path is resolved first, so its error wins; the login parameters
      come from the common login arguments. The home directory is looked up once per path; both
      lookups are taken to give the same answer. */
  function Build(env: Environment, home: HomeDir, login: LoginData.Login): (r: Result<Aws, CliError>)
    ensures r.Ok? <==> GetCredentialsPath(env, home).Ok? && GetConfigPath(env, home).Ok?
    ensures GetCredentialsPath(env, home).Err? ==> r == Err(GetCredentialsPath(env, home).error)
    ensures GetCredentialsPath(env, home).Ok? && GetConfigPath(env, home).Err? ==> r == Err(GetConfigPath(env, home).error)
    ensures r.Ok? ==> r.value == Aws(login, GetCredentialsPath(env, home).value, GetConfigPath(env, home).value)
  {
    match GetCredentialsPath(env, home)
    case Err(e) => Err(e)
    case Ok(credentialsPath) =>
      match GetConfigPath(env, home)
      case Err(e) => Err(e)
      case Ok(configPath) => Ok(Aws(login, credentialsPath, configPath))
  }

  /** With neither variable set, both paths fail together and with the same error. */
  lemma BuildWithoutEnvironment(env: Environment, home: HomeDir, login: LoginData.Login)
    requires ENV_CREDENTIALS_FILE_PATH !in env && ENV_CONFIG_FILE_PATH !in env
    ensures Build(env, home, login).Ok? <==> home.Found?
    ensures home.NotFound? ==> Build(env, home, login) == Err(HomeDirNotFound)
    ensures home.LookupFailed? ==> Build(env, home, login) == Err(HomeDirError)
  {
  }
}

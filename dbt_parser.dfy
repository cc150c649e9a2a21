/**
 * The arguments of `run dbt` (src/cli/parsers/run/dbt.rs): where the
 * profiles file is, which profile the project uses and which target was
 * asked for. The flag values, the environment, whether `profiles.yml` exists
 * in the current directory, the current directory, the home directory and
 * the project file's content are inputs.
 */
module DbtParser {
  import opened Wrappers
  import opened Strings
  import opened Paths
  import opened CliErrors
  import LoginData
  import RunData

  const PROFILES_FILE: String := "profiles.yml"
  const PROFILES_DIR_VAR: String := "DBT_PROFILES_DIR"
  const HOME_PROFILES_DIR: String := ".dbt"

  /** The project file `dbt_project.yml`: not openable, not a project document, or the profile
      it names. */
  datatype ProjectFile = Unopenable | Unparsable | Project(profile: String)

  /** Where the profiles directory comes from, in order of precedence. */
  datatype ProfilesSource = FromFlag | FromEnvironment | FromCurrentDirectory | FromHome

  /** The precedence of `get_profiles_path`: the `--profile-dir` flag, then `DBT_PROFILES_DIR`,
      then the current directory when it holds `profiles.yml`, then the home directory. */
  function Source(profileDir: Option<Path>, env: map<String, String>, profilesInCurrentDir: bool): (r: ProfilesSource)
    ensures profileDir.Some? <==> r == FromFlag
    ensures r == FromEnvironment <==> profileDir.None? && PROFILES_DIR_VAR in env
    ensures r == FromCurrentDirectory <==> profileDir.None? && PROFILES_DIR_VAR !in env && profilesInCurrentDir
  {
    if profileDir.Some? then FromFlag
    else if PROFILES_DIR_VAR in env then FromEnvironment
    else if profilesInCurrentDir then FromCurrentDirectory
    else FromHome
  }

  /** The directory `get_profiles_path` chooses. `None` stands for the panic of the `unwrap`
      on the current directory or of the `expect`s on the home directory. */
  function ProfilesDir(profileDir: Option<Path>, env: map<String, String>, profilesInCurrentDir: bool,
                       currentDir: Option<Path>, home: HomeDir): (r: Option<Path>)
    ensures var source := Source(profileDir, env, profilesInCurrentDir);
      && (source == FromFlag ==> r == profileDir)
      && (source == FromEnvironment ==> r == Some(FromString(env[PROFILES_DIR_VAR])))
      && (source == FromCurrentDirectory ==> r == currentDir)
      && (source == FromHome ==> r == if home.Found? then Some(JoinRel(home.path, HOME_PROFILES_DIR)) else None)
  {
    match Source(profileDir, env, profilesInCurrentDir)
    case FromFlag => profileDir
    case FromEnvironment => Some(FromString(env[PROFILES_DIR_VAR]))
    case FromCurrentDirectory => currentDir
    case FromHome => if home.Found? then Some(JoinRel(home.path, HOME_PROFILES_DIR)) else None
  }

  /** Joining `profiles.yml` makes it the last component. */
  lemma JoinProfilesFile(dir: Path)
    ensures EndsWith(JoinRel(dir, PROFILES_FILE), PROFILES_FILE)
  {
    assert '/' !in PROFILES_FILE;
    ParentOfJoin(dir, PROFILES_FILE);
  }

  /** `get_profiles_path`: `profiles.yml` in the chosen directory, `None` for a panic. */
  function GetProfilesPath(profileDir: Option<Path>, env: map<String, String>, profilesInCurrentDir: bool,
                           currentDir: Option<Path>, home: HomeDir): (r: Option<Path>)
    ensures var dir := ProfilesDir(profileDir, env, profilesInCurrentDir, currentDir, home);
      && (r.Some? <==> dir.Some?)
      && (r.Some? ==> r.value == JoinRel(dir.value, PROFILES_FILE))
    ensures r.Some? ==> EndsWith(r.value, PROFILES_FILE)
  {
    var dir := ProfilesDir(profileDir, env, profilesInCurrentDir, currentDir, home);
    if dir.Some? then
      JoinProfilesFile(dir.value);
      Some(JoinRel(dir.value, PROFILES_FILE))
    else None
  }

  /** The flag wins over everything else: with it, the environment, the current directory and
      the home directory make no difference. */
  lemma FlagWins(dir: Path, env1: map<String, String>, env2: map<String, String>, cwd1: bool, cwd2: bool,
                 current1: Option<Path>, current2: Option<Path>, home1: HomeDir, home2: HomeDir)
    ensures GetProfilesPath(Some(dir), env1, cwd1, current1, home1) == GetProfilesPath(Some(dir), env2, cwd2, current2, home2)
  {
  }

  /** Without the flag, the variable wins over the current and home directories. */
  lemma EnvironmentWins(env: map<String, String>, cwd1: bool, cwd2: bool,
                        current1: Option<Path>, current2: Option<Path>, home1: HomeDir, home2: HomeDir)
    requires PROFILES_DIR_VAR in env
    ensures GetProfilesPath(None, env, cwd1, current1, home1) == GetProfilesPath(None, env, cwd2, current2, home2)
  {
  }

  /** `get_profile`: the profile named by the project file. */
  function GetProfile(project: ProjectFile): (r: Result<String, CliError>)
    ensures r.Ok? <==> project.Project?
    ensures r.Ok? ==> r.value == project.profile
    ensures project.Unopenable? ==> r == Err(DbtProjectFileError)
    ensures project.Unparsable? ==> r == Err(DbtProjectParseError)
  {
    match project
    case Unopenable => Err(DbtProjectFileError)
    case Unparsable => Err(DbtProjectParseError)
    case Project(profile) => Ok(profile)
  }

  /** What `build` ends with: its result, or a panic while resolving the profiles path. */
  datatype BuildOutcome = Built(result: Result<RunData.Dbt, CliError>) | Panicked

  /** `build`: the profiles path, then the profile, then the target, which is `None` unless
      `--target` was given; the login parameters come from the common login arguments and the
      additional arguments are passed through. */
  function Build(login: LoginData.Login, profileDir: Option<Path>, env: map<String, String>, profilesInCurrentDir: bool,
                 currentDir: Option<Path>, home: HomeDir, project: ProjectFile,
                 target: Option<String>, additionalArgs: seq<String>): (r: BuildOutcome)
    ensures GetProfilesPath(profileDir, env, profilesInCurrentDir, currentDir, home).None? <==> r.Panicked?
    ensures r.Built? ==> (r.result.Ok? <==> project.Project?)
    ensures r.Built? && r.result.Err? ==> r.result == Err(GetProfile(project).error)
    ensures r.Built? && r.result.Ok? ==>
      && r.result.value.profilesPath == GetProfilesPath(profileDir, env, profilesInCurrentDir, currentDir, home).value
      && EndsWith(r.result.value.profilesPath, PROFILES_FILE)
      && r.result.value.profileName == project.profile
      && r.result.value.target == target
      && r.result.value.additionalArgs == additionalArgs
      && r.result.value.login == login
  {
    match GetProfilesPath(profileDir, env, profilesInCurrentDir, currentDir, home)
    case None => Panicked
    case Some(profilesPath) =>
      match GetProfile(project)
      case Err(e) => Built(Err(e))
      case Ok(profileName) => Built(Ok(RunData.Dbt(login, target, profileName, profilesPath, additionalArgs)))
  }
}

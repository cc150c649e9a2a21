/**
 * The parameters, commands and errors of the `run` commands
 * (src/run/data.rs and src/run/errors.rs). Starting a process is left to an
 * executer; the model records the command it is handed.
 */
module RunData {
  import opened Wrappers
  import opened Strings
  import opened Paths
  import LoginData
  import LoginFlow
  import Datastores

  /** `Dbt`: the parameters of `run dbt`. */
  datatype Dbt = Dbt(login: LoginData.Login, target: Option<String>, profileName: String,
                     profilesPath: Path, additionalArgs: seq<String>)

  /** `DynamicTool`: the parameters of `run <tool>`. */
  datatype DynamicTool = DynamicTool(tool: String, login: LoginData.Login, datastoreName: String,
                                     additionalArgs: seq<String>, database: Option<String>)

  /** What `ExecuteCommand::execute` is handed: the program, its arguments and its
      environment, in order. */
  datatype Command = Command(program: String, args: seq<String>, envs: seq<(String, String)>)

  /** The errors of the `run` commands. The revision of src/run/errors.rs in the source lacks
      `SpawnError`, which the executer in src/run/data.rs raises, and a conversion of the host
      error of `get_datastore_name`, which src/run/dynamic_tools.rs propagates with `?`; both are
      declared here. */
  datatype RunError =
    | LoginError(cause: LoginFlow.LoginError)
    | CommandError(program: String)
    | SpawnError(program: String)
    | HomeFolderError(folderError: Datastores.DefaultFolderError)
    | DatastoreNotFound(name: String)
    | DbtProfilesReadError(path: Path)
    | DbtProfilesParseError(path: Path)
    | DbtProfilesWriteError(path: Path)
    | DbtProfileNotFound(profile: String)
    | DbtTargetNotFound(target: String)
    | DbtProfilesBackupError(path: Path)
    | DatastoreHostError(hostError: Datastores.GetHostError)

  /** The end of a `run` command: its `?`-propagated result, or a panic. */
  datatype RunOutcome = Completed(result: Result<(), RunError>) | Panicked
}

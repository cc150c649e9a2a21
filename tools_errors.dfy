/**
 * The errors of the tool commands (src/tools/errors.rs). The revision of
 * that file in the source lacks `FailedToWriteToFile` and
 * `S3DatastoreNotFound`, which src/tools/aws/flow.rs raises; they are
 * declared here.
 */
module ToolsErrors {
  import opened Wrappers
  import opened Paths
  import Datastores
  import LoginFlow

  datatype ToolsError =
    | LoginError(cause: LoginFlow.LoginError)
    | HomeDirError
    | HomeDirNotFound
    | FailedToCreatePgpassFile
    | FailedToOpenPgpassFile
    | DatastoresError(error: Datastores.DatastoresError)
    | FailedWritingToPgpassFile
    | ReadLineError
    | FailedToWriteToFile(path: Path)
    | S3DatastoreNotFound

  /** The end of a tool command: its `?`-propagated result, or a panic from an `unwrap` or
      `expect`. */
  datatype ToolOutcome = Completed(result: Result<(), ToolsError>) | Panicked
}

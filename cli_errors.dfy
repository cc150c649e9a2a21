/**
 * The errors of the command-line parsers (src/cli/errors.rs).
 */
module CliErrors {
  datatype CliError = DbtProjectFileError | DbtProjectParseError | HomeDirError | HomeDirNotFound
}

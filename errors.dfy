/** The process exit codes of the `zuppa` command and the exceptions that
    decide them. */
module Errors {

  /** The exit codes listed in the command's help text. */
  datatype ExitCode =
    | Success        // the run finished without trouble
    | UserInterrupt  // stopped by the user
    | BadArg         // an option value is wrong or missing
    | NoNetwork      // there is no network to reach Zotero with
    | FileError      // reading or writing a file failed
    | ServerError    // the Zotero server failed
    | Exception      // any other failure

  /** The integer the process exits with for each code. */
  function Code(e: ExitCode): (n: int)
    ensures 0 <= n <= 6
    ensures n == 0 <==> e == Success
  {
    match e
    case Success => 0
    case UserInterrupt => 1
    case BadArg => 2
    case NoNetwork => 3
    case FileError => 4
    case ServerError => 5
    case Exception => 6
  }

  /** Distinct exit codes exit with distinct integers, so the process status
      identifies the outcome. */
  lemma CodeInjective(a: ExitCode, b: ExitCode)
    ensures Code(a) == Code(b) <==> a == b
  {
  }

  /** An exception that reaches the top level, by the type the top level
      tests it against. `CannotProceed` carries its exit code as its first
      argument; every other exception type is known only by its name. */
  datatype Exc =
    | CannotProceed(code: ExitCode)
    | KeyboardInterrupt
    | UserCancelled
    | Other(typeName: string)

  /** Whether an `except Exception` clause catches the exception:
      `KeyboardInterrupt` derives from `BaseException` only. */
  predicate IsException(e: Exc)
  {
    !e.KeyboardInterrupt?
  }
}

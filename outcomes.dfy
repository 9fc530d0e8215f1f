/** Option and Result values, and the failures the two scripts raise.
    Each Failure stands for one `raise` of the scripts; Message and ExceptionClass
    give the Python exception that the script raises for it. */
module Outcomes {

  datatype Option<T> = None | Some(value: T)

  /** The fatal errors of the two scripts. None of them is caught: each ends the run. */
  datatype Failure =
    | InvalidOption                 // basecalling option is not HAC or SUP
    | InvalidKit(kit: string, choices: string)  // kit name not in the kit table; the table's keys
    | MissingReadId(path: string)   // a summary table has no `read_id` column
    | NoReadIds                     // basecalling: nothing found even after regeneration
    | NoSummaryFiles                // pod5 split: the summary glob matched nothing
    | CommandFailed(cmd: string)    // an external command exited with a nonzero status
    | MissingColumn(column: string) // pandas: a column the script indexes or groups by is absent

  datatype Result<T> = Ok(value: T) | Err(error: Failure)

  /** The Python exception class raised for a failure. */
  function ExceptionClass(f: Failure): (cls: string)
    ensures cls == "ValueError" <==> (f.InvalidOption? || f.InvalidKit? || f.MissingReadId?)
    ensures cls == "FileNotFoundError" <==> (f.NoReadIds? || f.NoSummaryFiles?)
    ensures cls == "RuntimeError" <==> f.CommandFailed?
    ensures cls == "KeyError" <==> f.MissingColumn?
  {
    match f
    case InvalidOption => "ValueError"
    case InvalidKit(_, _) => "ValueError"
    case MissingReadId(_) => "ValueError"
    case NoReadIds => "FileNotFoundError"
    case NoSummaryFiles => "FileNotFoundError"
    case CommandFailed(_) => "RuntimeError"
    case MissingColumn(_) => "KeyError"
  }

  /** The text the script passes to the exception. */
  function Message(f: Failure): string
  {
    match f
    case InvalidOption => "Invalid basecalling option. Choose either 'HAC' or 'SUP'."
    case InvalidKit(kit, choices) => "Invalid kit: " + kit + ". Choose from " + choices
    case MissingReadId(path) => "'read_id' column not found in " + path
    case NoReadIds => "Failed to generate or find valid sequencing summary files."
    case NoSummaryFiles => "No sequencing summary files found matching the pattern."
    case CommandFailed(cmd) => "\n!!! Command failed: " + cmd
    case MissingColumn(column) => column
  }
}

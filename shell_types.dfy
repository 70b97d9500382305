/** Data model of the shell's command-line parser: the size limits, the
    Command record of one pipeline stage, the parser's read modes and error
    codes, and the text each error is reported with. */
module ShellTypes {

  /** Size of the line buffer filled by the prompt loop. */
  const CMDLINE_MAX := 512
  /** Size of the token buffer and of each argument and filename slot,
      terminating NUL included. */
  const TKN_MAX := 32
  /** Most arguments a command may have (the command name included). */
  const ARGS_MAX := 16
  /** Most commands a pipeline may have; it has one pipe fewer. */
  const PIPED_CMD_MAX := 4

  /** What a completed token is flushed into. */
  datatype ParseMode = SearchCommand | SearchFilename

  datatype ParseError =
    | MissingToken        // missing command or output file
    | BadFile             // the output file cannot be opened
    | ArgOverflow         // more than ARGS_MAX arguments
    | PipeOverflow        // more than PIPED_CMD_MAX - 1 pipes
    | MislocatedRedirect  // a pipe after an output redirection

  /** The slot the parser's target pointer designates: an argument slot of
      the current command or its output filename. */
  datatype Slot = Arg(index: nat) | OutputName

  /** One pipeline stage. `arguments` holds exactly the stored argument
      slots, so its length is the stage's argument count. */
  datatype Command = Command(
    arguments: seq<string>,
    outputName: string,
    outputToFile: bool,
    errToFile: bool,
    errToPipe: bool,
    exitStatus: int)

  /** A command as InitCommand leaves it: no arguments, the filename
      sentinel " ", no redirection, exit status 0. */
  const FRESH_COMMAND := Command([], " ", false, false, false, 0)

  /** The result of parsing one line: a pipeline with its pipe count, the
      single error reported (with the read mode passed to the reporter), or
      a blank line, which fails without any message. */
  datatype ParseOutcome =
    | Parsed(commands: seq<Command>, numPipes: nat)
    | Failed(error: ParseError, mode: ParseMode)
    | Blank

  /** Intermediate result of a parsing step. */
  datatype Result<T> = Ok(value: T) | Err(error: ParseError, mode: ParseMode)

  /** The message the error reporter writes for an error code; only a missing
      token is worded by the read mode. */
  function ErrorMessage(error: ParseError, mode: ParseMode): (msg: string)
    ensures |msg| > 0
  {
    match error
    case MissingToken =>
      if mode == SearchCommand then "Error: missing command" else "Error: no output file"
    case BadFile => "Error: cannot open output file"
    case ArgOverflow => "Error: too many process arguments"
    case PipeOverflow => "Error: too many pipes"
    case MislocatedRedirect => "Error: mislocated output redirection"
  }

  /** Two reports read the same exactly when they are for the same error and,
      for a missing token, the same read mode. */
  lemma MessageIdentifiesError(e1: ParseError, m1: ParseMode, e2: ParseError, m2: ParseMode)
    ensures ErrorMessage(e1, m1) == ErrorMessage(e2, m2)
            <==> e1 == e2 && (e1 == MissingToken ==> m1 == m2)
  {
  }
}

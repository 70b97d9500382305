# sshell command-line parser and pipeline plan, in Dafny

This project models the core of `sshell`, a small Unix shell. The shell
reads one line and splits it into a pipeline of at most four commands, in a
single pass with no backtracking. Each command has at most sixteen
arguments. Stages are joined by `|` or `|&`, and the last stage may send
its output to a file with `>` or `>&`. The parser reports the first
violation it meets: a missing command or output file, an output file that
cannot be opened, too many arguments, too many pipes, or a redirection
before a pipe. The shell then connects the stages through pipes, records
each child's exit status, and handles the builtins `exit`, `cd`, `pwd` and
`sls` by the first command's name.

The line the model receives is the text before the terminating NUL,
after the prompt loop has removed the newline. Only `' '` counts as
whitespace; `|` and `>` also end a token, and a tab is an ordinary
character.

In the table below, "bar" stands for the pipe character and "bar-&" for
the two characters of the pipe-with-stderr operator.

Files and modules:

- `shell_types.dfy` (`ShellTypes`):
  - the limits `CMDLINE_MAX`, `TKN_MAX`, `ARGS_MAX` and `PIPED_CMD_MAX`;
  - the `Command` record;
  - the read modes and error codes;
  - the outcome of a parse;
  - the error reporter's messages.
- `parse_spec.dfy` (`ParseSpec`): the parser as a functional state
  machine.
  - `CopyToken` and `Flush` store a finished token.
  - `AtPipe`, `AtRedirect`, `AtSpace` and `AtOther` are the four cases of
    the loop's `switch`. A lemma beside each states what it does.
  - `Step` reads one character, or two for `|&` and `>&`.
  - `Run` scans to the end of the line.
  - `Finish` handles the end of the line.
  - `ParseLine` is the whole parse. It is the specification the imperative
    parser is proved against.
- `parser.dfy` (`Parser`): the parser as the shell runs it.
  - A `CommandSet` class holds an array of `PIPED_CMD_MAX` command records
    and `numCmd`.
  - A `PipeEnv` class holds `numPipes`.
  - The token buffer is a `TKN_MAX`-character array.
  - `ParseCmd` fills these structures in one `while` loop. It is proved to
    return `ParseLine(line, canOpen)` and to leave exactly the parsed
    pipeline in `commands[..numCmd]`. The loop invariant is that resuming
    the specification from the loop's variables gives the same outcome as
    parsing the whole line.
- `parse_props.dfy` (`ParseProps`): what every accepted line yields.
  - It proves an invariant of every scanner state the parse reaches.
  - From that invariant it derives the shape of an accepted pipeline and
    how that shape reflects the operators of the line.
- `parse_extend.dfy` (`ParseExtend`): how the outcome for an accepted line
  changes when more text is appended. Most lemmas hold whatever text
  follows, so they fix the order of the checks:
  - spaces and a token of any length, then any further text;
  - a `|`, `|&`, `>` or `>&`, spaces and a token, then any further text;
  - a second operator right after `|` or `>`;
  - a dangling operator.
- `execution.dfy` (`Execution`):
  - the descriptor plan of each stage;
  - the parent's loop that records exit statuses;
  - the builtin dispatch.

`VerifyFile` opens the output file to check that it can be created. Here it
is the parameter `canOpen: string -> bool`, an oracle for whether the file
system lets a name be opened for writing.

Limits and reports as the code has them:

- Token length is never checked. `ParseCmd` writes `segment[length]`
  without a bound (`sshell.c:390`). The model therefore requires every
  token of the line to fit (`TokensFit`); it reports no error for a long
  token.
- Line length is bounded only by `fgets`, which reads at most
  `CMDLINE_MAX - 1` characters (`sshell.c:465`). The model takes the line
  as given.
- A line of spaces (or an empty line) makes `ParseCmd` return 1 without any
  message (`sshell.c:398-401`). The model reports this as the outcome
  `Blank`.
- Errors other than a missing token are reported with read mode 0
  (`SEARCH_COMMAND`), so the model tags them with `SearchCommand`.

## Model

| member | source | states |
|---|---|---|
| ShellTypes.ErrorMessage | sshell.c:176-199 | every error code has a non-empty message; only a missing token is worded by the read mode |
| ShellTypes.MessageIdentifiesError | sshell.c:176-199 | two reports read alike exactly when they are for the same error and, for a missing token, the same read mode |
| ParseSpec.TokenRunFits | sshell.c:389-391 | in a line whose tokens fit, appending a token character never writes past the last slot of the token buffer |
| ParseSpec.CopyToken | sshell.c:216-235 | the copy of a finished token into its target slot (its properties are CopyTokenOutcome's) |
| ParseSpec.CopyTokenOutcome | sshell.c:216-235 | a token is stored exactly when it is non-empty and, as a filename, can be opened; an empty one is a missing token in the read mode, a refused name a bad file; only the target slot changes, a filename lands in the output name and a new argument after the stored ones |
| ParseSpec.Flush | sshell.c:283-291 | the flush each case performs (its properties are FlushOutcome's) |
| ParseSpec.FlushOutcome | sshell.c:283-291 | a flush empties the token, changes only the current command's arguments or output name, never leaves more than ARGS_MAX arguments, fails as the copy does or on a seventeenth argument, and appends a new argument to a command with fewer than ARGS_MAX |
| ParseSpec.AtPipe | sshell.c:281-329 | the "bar" case of the switch (its properties are AtPipeChecks') |
| ParseSpec.AtPipeChecks | sshell.c:281-329 | the flush is checked first, then a redirected current command, then a fourth pipe; a pipe that passes closes the command after the finished ones, marking its error stream piped exactly when it was or the operator is "bar-&", opens a fresh command with the token boundary reset, and skips the "&" |
| ParseSpec.AtRedirect | sshell.c:330-359 | the ">" case of the switch (its properties are AtRedirectTargetsFile's) |
| ParseSpec.AtRedirectTargetsFile | sshell.c:330-359 | only the flush can fail; otherwise the current command writes its output to a file, and its error stream exactly when it did or the operator is ">&", and the scan awaits the output filename with the finished commands and pipe count unchanged |
| ParseSpec.AtSpace | sshell.c:360-366 | the space case of the switch (its properties are AtSpaceMarksBoundary's) |
| ParseSpec.AtSpaceMarksBoundary | sshell.c:360-366 | a space never fails and changes only the boundary flag, which ends set exactly when it was set, a command is sought, or a filename has begun |
| ParseSpec.AtOther | sshell.c:367-392 | the default case of the switch (its properties are AtOtherAppends') |
| ParseSpec.AtOtherAppends | sshell.c:367-392 | only a flush at a token boundary can fail; the character always ends the token; without a boundary the token grows by it, and after one it starts a new argument token in the current command |
| ParseSpec.Step | sshell.c:276-393 | every loop turn advances, by two positions only for a "bar-&" or ">&" whose "&" it consumes |
| ParseSpec.Run | sshell.c:276-394 | the `for` loop over the line, stopping at the first error (its properties are ParseProps.RunKeeps' and ParseExtend.RunPrefix') |
| ParseSpec.Finish | sshell.c:396-413 | the end-of-line handling (its properties are FinishOutcome's) |
| ParseSpec.FinishOutcome | sshell.c:396-413 | the parse fails silently exactly when no token was read at all, reports a missing token in the read mode after a hanging operator, and on success closes the current command after the finished ones with the pipe count unchanged |
| ParseSpec.ParseLine | sshell.c:251-414 | the whole parse of one line: the scan from the initial state, then the end-of-line step (its properties are ParseProps' and ParseExtend's) |
| Parser.CommandSet.constructor | sshell.c:35-39 | a set of PIPED_CMD_MAX command records, none in use |
| Parser.PipeEnv.constructor | sshell.c:42-46 | a pipe environment with no pipes |
| Parser.InitCommand | sshell.c:238-247 | record k becomes an initialised command (no arguments, name " ", no redirection, status 0); the others are unchanged |
| Parser.CopyToken | sshell.c:216-235 | an empty token is a missing token in the read mode; a refused filename is a bad file; otherwise the token lands in the target slot and the buffer is cleared to NULs |
| Parser.FlushToken | sshell.c:283-291 | the copy plus argument count and the seventeenth-argument refusal, as the specification's Flush |
| Parser.ScanPipe | sshell.c:281-329 | the "bar" case: flush, then a mislocated redirect, then a fourth pipe refused, "bar-&" consumed, next command opened; equals the specification's step |
| Parser.ScanRedirect | sshell.c:330-359 | the ">" case: flush, then output (and error stream for ">&") to the file, filename mode; equals the specification's step |
| Parser.ScanOther | sshell.c:367-392 | the default case: flush after a token boundary, then append the character within the buffer; equals the specification's step |
| Parser.ScanChar | sshell.c:278-393 | one turn of the switch equals one specification step, and the token in the buffer stays a run of token characters that fits |
| Parser.FinishScan | sshell.c:396-413 | the end of the line: dangling operator, silent blank line, or last token flushed and pipeline closed, as the specification's Finish |
| Parser.ParseCmd | sshell.c:251-414 | the outcome is ParseLine's; it fails exactly when the line is not accepted, and on success the first numCmd records and numPipes hold the pipeline |
| ParseProps.PipeKeepsCommands | sshell.c:281-329 | the "bar" case keeps every closed stage well formed |
| ParseProps.RedirectKeepsCommands | sshell.c:330-359 | the ">" case keeps the current command well formed |
| ParseProps.StepKeeps | sshell.c:278-393 | every loop turn keeps the invariant of reachable states; only a non-space character can stop the scan |
| ParseProps.RunKeeps | sshell.c:276-394 | the invariant holds at the end of every scan that succeeds; a failing scan meets a non-space character |
| ParseProps.FinishKeeps | sshell.c:396-413 | the end of the line turns an invariant state into a well-formed pipeline, and fails silently exactly on a line of spaces |
| ParseProps.ParsedPipeline | sshell.c:251-414 | an accepted line is 1 to 4 stages of 1 to 16 valid arguments with one pipe per "bar"; only the last stage is redirected, exactly when the line has a ">", and its error stream too exactly when it has a ">&"; some stage pipes its error stream exactly when the line has a "bar-&"; no "bar" follows a ">"; the blank outcome is exactly a line of spaces |
| ParseProps.TooManyPipesRejected | sshell.c:300-306 | a line with four "bar" is never accepted |
| ParseProps.PipeAfterRedirectRejected | sshell.c:293-298 | a line with a "bar" after a ">" is never accepted |
| ParseProps.LeadingSpaces | sshell.c:360-366 | leading spaces leave the parser in its initial state but for the token boundary |
| ParseProps.LeadingOperatorRejected | sshell.c:219-223 | a "bar" or ">" before any token is a missing command |
| ParseExtend.RunPrefix | sshell.c:276-394 | the scan of a line extended by text not starting with "&" passes through the scan of the line itself |
| ParseExtend.ParsedEnd | sshell.c:403-413 | an accepted line ends on a pending token in an invariant state whose flush yields the pipeline |
| ParseExtend.SkipSpaces | sshell.c:360-366 | a run of spaces only marks a token boundary, and only when a command is sought or a filename has begun |
| ParseExtend.TokenRun | sshell.c:367-392 | a run of token characters read without a pending boundary is appended to the token in progress and clears the boundary flags |
| ParseExtend.NewToken | sshell.c:367-392 | a token that starts after a boundary first flushes the pending one, then becomes the pending next argument |
| ParseExtend.FlushFailsAhead | sshell.c:283-291 | a pending token whose flush fails makes the line fail with that error whatever follows, once the next character ends the token |
| ParseExtend.PipeRefused | sshell.c:281-306 | a "bar" or "bar-&" after an accepted line with a redirected last stage is a mislocated redirect, and after one with three pipes a pipe overflow, whatever follows |
| ParseExtend.PipeOpened | sshell.c:281-329 | a "bar" or "bar-&" that passes the checks closes the last stage (marking it for "bar-&") and resumes with a fresh command, whatever follows |
| ParseExtend.PipeOperator | sshell.c:281-329 | a "bar" or "bar-&" after an accepted line, whatever follows: a redirected last stage is refused before a fourth pipe; otherwise the scan resumes with the stage closed |
| ParseExtend.RedirectOperator | sshell.c:330-359 | a ">" or ">&" after an accepted line, whatever follows: the last stage writes its output, and for ">&" its error stream, to a file, and the scan awaits the filename |
| ParseExtend.PipeToken | sshell.c:281-392 | a pipe operator, spaces and a token, then any text: the pipe checks decide first; otherwise the token is the pending name of a new stage |
| ParseExtend.PipeExtension | sshell.c:281-413 | a pipe operator, spaces and a command at the end of an accepted line: a redirected last stage is refused first, then a fourth pipe; otherwise a stage is added and "bar-&" marks the previous one |
| ParseExtend.RedirectToken | sshell.c:330-392 | a redirection, spaces and a token, then any text: the token is the pending output filename of the last stage |
| ParseExtend.RedirectExtension | sshell.c:330-413 | a redirection and a filename at the end of an accepted line redirect the last stage's output, and its error stream for ">&", when the name can be opened, and are a bad file otherwise |
| ParseExtend.RedirectBadFile | sshell.c:225-227 | an output file that cannot be opened is reported as soon as its name ends, whatever separator follows, even a pipe that would be a fourth one or a mislocated one |
| ParseExtend.ArgumentToken | sshell.c:360-392 | spaces and a token after an accepted line, then any text: the line's last token is stored and the new token is the pending next argument of the last stage |
| ParseExtend.ExtraArgument | sshell.c:367-413 | spaces and a token at the end of an accepted line add an argument to its last stage, even after a filename; a seventeenth is refused |
| ParseExtend.ArgOverflowFirst | sshell.c:376-381 | a seventeenth argument is refused as soon as it ends, whatever separator follows, even a pipe after a redirected stage |
| ParseExtend.PipeThenOperator | sshell.c:281-329 | a second "bar" or ">" right after a pipe operator and spaces: the pipe checks, then a missing command |
| ParseExtend.RedirectThenOperator | sshell.c:330-359 | a "bar" or ">" right after a redirection and spaces is a missing output file |
| ParseExtend.DanglingPipe | sshell.c:396-401 | a trailing "bar" or "bar-&" after an accepted line passes the same checks, then is a missing command |
| ParseExtend.DanglingRedirect | sshell.c:396-401 | a trailing ">" or ">&" after an accepted line is a missing output file |
| Execution.StageWiring | sshell.c:82-137 | stage k reads pipe k-1 exactly when it is not the first; a redirected stage writes its file; otherwise it writes pipe k exactly when it is not the last, and the shell's output else; its error stream goes to the file exactly for ">&", to pipe k exactly when piped and not sent to the file |
| Execution.PipelineWiring | sshell.c:82-137 | in a well-formed pipeline, stage k reads pipe k-1 after the first stage, writes pipe k before the last, and sends its error stream to pipe k only for "bar-&"; a redirection overrides both; no stage uses a pipe that is not open |
| Execution.ParsedWiring | sshell.c:118-137 | every accepted line yields a plan where each pipe joins stage k to stage k+1 and no stage uses a pipe beyond numPipes |
| Execution.ExitCode | sshell.c:151 | the exit code is the second byte of the wait status |
| Execution.RecordExitStatuses | sshell.c:147-152 | the j-th wait status gives the exit status of command j, and nothing else in the records changes |
| Execution.BuiltinName | sshell.c:487-501 | the name each builtin is chosen by (its properties are Dispatch's and DispatchByName's) |
| Execution.Dispatch | sshell.c:487-506 | a builtin is chosen exactly when the first command's name is that builtin's name; otherwise the pipeline runs |
| Execution.DispatchByName | sshell.c:487-506 | every builtin is chosen by its own name |

## Left out

- The prompt loop (`sshell.c:457-477`): printing the prompt, `fgets`, echoing the line when stdin is not a terminal, and removing the newline. These are terminal I/O. The model starts from the line those steps produce.
- The completion report and error texts written to stderr (`sshell.c:507-514`). The model keeps only the text of each parse error (`ErrorMessage`), not the writing.
- The builtins' effects: `chdir`, `getcwd` and the directory listing `sls` (`sshell.c:419-448`, `488-502`). These are system calls; the model decides only which builtin runs.
- The `cd` builtin reads `arguments[1]` even when `cd` has no argument, so it gets a stale slot. Slots beyond the stored arguments are not modelled (below).
- `OpenPipes`, `ClosePipes`, `fork`, `execvp`, `dup2` and `waitpid` (`sshell.c:49-96`, `107-117`). These are system calls and processes running concurrently. The model keeps the plan of which descriptor goes where (`StageWiring`) and the parent's recording loop. The wait statuses are a parameter of `RecordExitStatuses`.
- The `argv` array `RunCommand` builds (`sshell.c:72-80`). Its entries are the stored arguments followed by NULL, which is what `Command.arguments` holds.
- `VerifyFile`'s creation of the file, and the difference between its create-only open and the truncating open in `RunCommand`. Both are file-system effects. Whether a name can be opened is the oracle `canOpen`.
- `output_dest`: `InitCommand` sets it to `STDOUT_FILENO` (`sshell.c:240`), a value nothing reads, and `RunCommand` sets it from `open` (`sshell.c:84`). It is a descriptor and is not modelled.
- C string details: argument slots beyond `num_args` that keep text from earlier lines, NUL padding, and `strcpy` into fixed-size slots. Each command's `arguments` holds exactly its stored tokens.
- Parser.ParseCmd: requires every token of the line to be at most 31 characters (`TokensFit`), leaving the NUL that `strcpy` at `sshell.c:230` needs. The code never checks this: a 32-character token leaves `segment` without its NUL, so that `strcpy` reads past it, and a 33rd character writes past `segment` at `sshell.c:390`. Both are undefined behaviour in C and are not modelled. Parser.ScanChar and Parser.ScanOther carry the same requirement.
- The `default` branch of the error reporter (`sshell.c:196-197`). No error code outside the enumeration is ever passed, and `ParseError` has only the five codes.
- ParseSpec.TokensFit: each character of the line stands for one byte of the C buffer. Multi-byte encodings are not modelled.

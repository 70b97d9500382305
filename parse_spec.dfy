/** The command-line parser as a state machine over the characters of one
    line: each step reads one character (two for "|&" and ">&") and either
    moves to a new scanner state or stops at the first violation. ParseLine
    is the specification the imperative ParseCmd is proved against. */
module ParseSpec {
  import opened ShellTypes

  /** Everything the scan of a line carries from one character to the next:
      the finished commands, the command being built, the pipe count, the
      token read so far, the read mode, the target slot, and the flags
      encounter_whitespace (sawSpace) and init_skip (initSkip). */
  datatype ScanState = ScanState(
    done: seq<Command>,
    cur: Command,
    numPipes: nat,
    token: string,
    mode: ParseMode,
    target: Slot,
    sawSpace: bool,
    initSkip: bool)

  /** The state before the first character: an initialised first command
      whose first argument slot is the target. */
  const START := ScanState([], FRESH_COMMAND, 0, [], SearchCommand, Arg(0), false, true)

  /** The characters that end a token; a tab is an ordinary character. */
  predicate IsSeparator(c: char) {
    c == ' ' || c == '|' || c == '>'
  }

  /** The line has "&" right after position i, which "|" and ">" consume. */
  predicate AmpFollows(line: string, i: nat) {
    i + 1 < |line| && line[i + 1] == '&'
  }

  /** Position k holds an "&" that the "|" or ">" before it consumes. */
  predicate Consumed(line: string, k: nat) {
    0 < k < |line| && line[k] == '&' && (line[k - 1] == '|' || line[k - 1] == '>')
  }

  /** Position k holds a character that the scan appends to a token. */
  predicate TokenChar(line: string, k: nat)
    requires k < |line|
  {
    !IsSeparator(line[k]) && !Consumed(line, k)
  }

  /** Some position of the TKN_MAX characters from k on is not a token
      character. */
  predicate BreakWithin(line: string, k: nat)
    requires k + TKN_MAX <= |line|
  {
    exists j :: k <= j < k + TKN_MAX && !TokenChar(line, j)
  }

  /** Every token of the line fits the token buffer with its terminating
      NUL, i.e. is at most TKN_MAX - 1 characters long. */
  predicate TokensFit(line: string) {
    forall k: nat :: k + TKN_MAX <= |line| ==> BreakWithin(line, k)
  }

  /** A run of token characters ending at position i, in a line whose
      tokens fit the buffer, leaves room for the terminating NUL. */
  lemma TokenRunFits(line: string, i: nat, length: nat)
    requires TokensFit(line) && i < |line| && length <= i
    requires forall j :: i - length <= j <= i ==> TokenChar(line, j)
    ensures length + 1 < TKN_MAX
  {
    if i + 1 >= TKN_MAX {
      // the break the window ending at i must hold lies before the run
      assert BreakWithin(line, i + 1 - TKN_MAX);
    }
  }

  /** The command with `tok` stored in slot `target`; a new argument lands in
      the slot just past the stored ones. */
  function WriteSlot(cmd: Command, target: Slot, tok: string): Command {
    match target
    case Arg(k) =>
      cmd.(arguments := if k < |cmd.arguments| then cmd.arguments[k := tok] else cmd.arguments + [tok])
    case OutputName => cmd.(outputName := tok)
  }

  /** CopyToken: an empty token is a missing command or output file (by the
      read mode); a filename must pass the `canOpen` oracle (VerifyFile);
      otherwise the token is stored in the target slot. */
  function CopyToken(tok: string, mode: ParseMode, target: Slot, cmd: Command,
                     canOpen: string -> bool): Result<Command>
  {
    if |tok| == 0 then Err(MissingToken, mode)
    else if mode == SearchFilename && !canOpen(tok) then Err(BadFile, SearchCommand)
    else Ok(WriteSlot(cmd, target, tok))
  }

  /** A token is stored exactly when it is non-empty and, as a filename,
      can be opened; storing it changes only the target slot. */
  lemma CopyTokenOutcome(tok: string, mode: ParseMode, target: Slot, cmd: Command, canOpen: string -> bool)
    ensures var r := CopyToken(tok, mode, target, cmd, canOpen);
            && (r.Ok? <==> |tok| > 0 && (mode == SearchFilename ==> canOpen(tok)))
            && (|tok| == 0 ==> r == Err(MissingToken, mode))
            && (|tok| > 0 && r.Err? ==> r == Err(BadFile, SearchCommand))
            && (r.Ok? ==> r.value.(arguments := cmd.arguments, outputName := cmd.outputName) == cmd)
            && (r.Ok? && target == OutputName ==> r.value == cmd.(outputName := tok))
            && (r.Ok? && target == Arg(|cmd.arguments|)
                ==> r.value == cmd.(arguments := cmd.arguments + [tok]))
  {
  }

  /** What every flush point does: copy the token, count the argument, and
      refuse a seventeenth argument. */
  function Flush(st: ScanState, canOpen: string -> bool): Result<ScanState> {
    match CopyToken(st.token, st.mode, st.target, st.cur, canOpen)
    case Err(e, m) => Err(e, m)
    case Ok(cmd) =>
      if |cmd.arguments| > ARGS_MAX then Err(ArgOverflow, SearchCommand)
      else Ok(st.(cur := cmd, token := []))
  }

  /** A flush empties the token and changes only the current command,
      which keeps at most ARGS_MAX arguments; it fails as the copy does or
      on a seventeenth argument, and a new argument of a command with
      fewer than ARGS_MAX is appended. */
  lemma FlushOutcome(st: ScanState, canOpen: string -> bool)
    ensures var r := Flush(st, canOpen);
            && (r.Ok? ==> r.value == st.(cur := r.value.cur, token := []) && |r.value.cur.arguments| <= ARGS_MAX)
            && (r.Ok? ==> r.value.cur.(arguments := st.cur.arguments, outputName := st.cur.outputName) == st.cur)
            && (r.Err? && r.error != ArgOverflow ==>
                  var c := CopyToken(st.token, st.mode, st.target, st.cur, canOpen);
                  c.Err? && r.error == c.error && r.mode == c.mode)
            && (r.Err? && r.error == ArgOverflow ==> |st.cur.arguments| >= ARGS_MAX)
            && (|st.token| > 0 && st.mode == SearchCommand && st.target == Arg(|st.cur.arguments|)
                && |st.cur.arguments| < ARGS_MAX
                ==> r == Ok(st.(cur := st.cur.(arguments := st.cur.arguments + [st.token]), token := [])))
  {
  }

  datatype Stepped = Next(pos: nat, state: ScanState) | Stop(error: ParseError, mode: ParseMode)

  /** "|": flush the token, refuse a pipe after a redirection and a fourth
      pipe, let "|&" also send the error stream down the pipe, and start a
      new command. */
  function AtPipe(line: string, canOpen: string -> bool, i: nat, st: ScanState): Stepped
    requires i < |line|
  {
    match Flush(st, canOpen)
    case Err(e, m) => Stop(e, m)
    case Ok(s) =>
      if s.cur.outputToFile then Stop(MislocatedRedirect, SearchCommand)
      else if s.numPipes + 1 > PIPED_CMD_MAX - 1 then Stop(PipeOverflow, SearchCommand)
      else
        var amp := AmpFollows(line, i);
        var closed := if amp then s.cur.(errToPipe := true) else s.cur;
        Next(if amp then i + 2 else i + 1,
             ScanState(s.done + [closed], FRESH_COMMAND, s.numPipes + 1, [],
                       SearchCommand, Arg(0), false, true))
  }

  /** ">": flush the token, retarget to the output filename, and let ">&"
      also send the error stream to the file. */
  function AtRedirect(line: string, canOpen: string -> bool, i: nat, st: ScanState): Stepped
    requires i < |line|
  {
    match Flush(st, canOpen)
    case Err(e, m) => Stop(e, m)
    case Ok(s) =>
      var amp := AmpFollows(line, i);
      var redirected := s.cur.(outputToFile := true, errToFile := s.cur.errToFile || amp);
      Next(if amp then i + 2 else i + 1,
           s.(cur := redirected, target := OutputName, sawSpace := false, mode := SearchFilename))
  }

  /** The state a space leaves: a token boundary, except while looking for
      a filename that has not begun. */
  function Spaced(st: ScanState): ScanState {
    if st.mode == SearchCommand || |st.token| > 0 then st.(sawSpace := true) else st
  }

  /** " ": note a token boundary; while looking for a filename only once the
      filename has begun. */
  function AtSpace(i: nat, st: ScanState): Stepped {
    Next(i + 1, Spaced(st))
  }

  /** Any other character: after a boundary (and not before the first token
      of a command) flush the token and target the next argument slot; then
      append the character to the token. */
  function AtOther(c: char, canOpen: string -> bool, i: nat, st: ScanState): Stepped {
    if st.sawSpace && !st.initSkip then
      match Flush(st, canOpen)
      case Err(e, m) => Stop(e, m)
      case Ok(s) =>
        Next(i + 1, s.(target := Arg(|s.cur.arguments|), mode := SearchCommand,
                       initSkip := false, sawSpace := false, token := [c]))
    else
      Next(i + 1, st.(initSkip := false, sawSpace := false, token := st.token + [c]))
  }

  /** At a "|" the flush is checked first, then a redirection of the
      current command, then the pipe count; a pipe that passes closes the
      command (marked for "|&") and opens a fresh one. */
  lemma AtPipeChecks(line: string, canOpen: string -> bool, i: nat, st: ScanState)
    requires i < |line|
    ensures var f := Flush(st, canOpen);
            f.Err? ==> AtPipe(line, canOpen, i, st) == Stop(f.error, f.mode)
    ensures Flush(st, canOpen).Ok? && st.cur.outputToFile
            ==> AtPipe(line, canOpen, i, st) == Stop(MislocatedRedirect, SearchCommand)
    ensures Flush(st, canOpen).Ok? && !st.cur.outputToFile && st.numPipes >= PIPED_CMD_MAX - 1
            ==> AtPipe(line, canOpen, i, st) == Stop(PipeOverflow, SearchCommand)
    ensures var r := AtPipe(line, canOpen, i, st);
            r.Next? ==>
              && r.pos == (if AmpFollows(line, i) then i + 2 else i + 1)
              && r.state.numPipes == st.numPipes + 1 < PIPED_CMD_MAX
              && |r.state.done| == |st.done| + 1 && r.state.done[..|st.done|] == st.done
              && !r.state.done[|st.done|].outputToFile
              && (r.state.done[|st.done|].errToPipe <==> st.cur.errToPipe || AmpFollows(line, i))
              && r.state == ScanState(r.state.done, FRESH_COMMAND, r.state.numPipes, [],
                                      SearchCommand, Arg(0), false, true)
  {
  }

  /** At a ">" only the flush can fail; otherwise the current command
      writes its output (and for ">&" its error stream) to the file whose
      name comes next. */
  lemma AtRedirectTargetsFile(line: string, canOpen: string -> bool, i: nat, st: ScanState)
    requires i < |line|
    ensures AtRedirect(line, canOpen, i, st).Stop? <==> Flush(st, canOpen).Err?
    ensures var r := AtRedirect(line, canOpen, i, st);
            r.Next? ==>
              && r.pos == (if AmpFollows(line, i) then i + 2 else i + 1)
              && r.state.cur.outputToFile
              && (r.state.cur.errToFile <==> st.cur.errToFile || AmpFollows(line, i))
              && r.state.done == st.done && r.state.numPipes == st.numPipes
              && r.state.token == [] && r.state.mode == SearchFilename && r.state.target == OutputName
              && !r.state.sawSpace
  {
  }

  /** A space never fails and changes only the boundary flag, which it
      sets unless a filename is awaited and none has begun. */
  lemma AtSpaceMarksBoundary(i: nat, st: ScanState)
    ensures var r := AtSpace(i, st);
            && r.Next? && r.pos == i + 1 && r.state.(sawSpace := st.sawSpace) == st
            && (r.state.sawSpace <==> st.sawSpace || st.mode == SearchCommand || |st.token| > 0)
  {
  }

  /** Any other character can fail only by flushing at a token boundary;
      it always ends the token in progress, which starts afresh after a
      boundary and otherwise grows by the character. */
  lemma AtOtherAppends(c: char, canOpen: string -> bool, i: nat, st: ScanState)
    ensures AtOther(c, canOpen, i, st).Stop? ==> st.sawSpace && !st.initSkip && Flush(st, canOpen).Err?
    ensures var r := AtOther(c, canOpen, i, st);
            r.Next? ==>
              && r.pos == i + 1 && !r.state.sawSpace && !r.state.initSkip
              && |r.state.token| > 0 && r.state.token[|r.state.token| - 1] == c
    ensures !(st.sawSpace && !st.initSkip)
            ==> AtOther(c, canOpen, i, st) == Next(i + 1, st.(initSkip := false, sawSpace := false,
                                                             token := st.token + [c]))
    ensures var r := AtOther(c, canOpen, i, st);
            st.sawSpace && !st.initSkip && r.Next? ==>
              && r.state.token == [c] && r.state.mode == SearchCommand
              && r.state.target == Arg(|r.state.cur.arguments|)
              && r.state.done == st.done && r.state.numPipes == st.numPipes
  {
  }

  /** One turn of the scanning loop at position i. */
  function Step(line: string, canOpen: string -> bool, i: nat, st: ScanState): (r: Stepped)
    requires i < |line|
    ensures r.Next? ==> i < r.pos <= |line|
    ensures r.Next? && r.pos == i + 2 ==> (line[i] == '|' || line[i] == '>') && line[i + 1] == '&'
  {
    match line[i]
    case '|' => AtPipe(line, canOpen, i, st)
    case '>' => AtRedirect(line, canOpen, i, st)
    case ' ' => AtSpace(i, st)
    case c => AtOther(c, canOpen, i, st)
  }

  /** The scan from position i to the end of the line. */
  function Run(line: string, canOpen: string -> bool, i: nat, st: ScanState): Result<ScanState>
    requires i <= |line|
    decreases |line| - i
  {
    if i == |line| then Ok(st)
    else
      match Step(line, canOpen, i, st)
      case Stop(e, m) => Err(e, m)
      case Next(j, s) => Run(line, canOpen, j, s)
  }

  /** The command the first argument slot belongs to. */
  function FirstCommand(st: ScanState): Command {
    if |st.done| > 0 then st.done[0] else st.cur
  }

  /** The end of the line: a hanging operator is a missing token, a line
      with no token at all fails silently, and otherwise the last token is
      flushed and the current command closes the pipeline. */
  function Finish(st: ScanState, canOpen: string -> bool): ParseOutcome {
    if |st.token| == 0 then
      if |FirstCommand(st).arguments| > 0 then Failed(MissingToken, st.mode) else Blank
    else
      match Flush(st, canOpen)
      case Err(e, m) => Failed(e, m)
      case Ok(s) => Parsed(s.done + [s.cur], s.numPipes)
  }

  /** The end of the line is silent exactly when no token was ever read,
      a missing token when an operator is left hanging, and an accepted
      pipeline closes the current command after the finished ones. */
  lemma FinishOutcome(st: ScanState, canOpen: string -> bool)
    ensures var o := Finish(st, canOpen);
            && (o == Blank <==> |st.token| == 0 && |FirstCommand(st).arguments| == 0)
            && (|st.token| == 0 && |FirstCommand(st).arguments| > 0 ==> o == Failed(MissingToken, st.mode))
            && (o.Parsed? ==>
                  && |st.token| > 0 && |o.commands| == |st.done| + 1
                  && o.commands[..|st.done|] == st.done && o.numPipes == st.numPipes)
  {
  }

  /** The outcome of the scan resumed at position i in state st. */
  function Resume(line: string, canOpen: string -> bool, i: nat, st: ScanState): ParseOutcome
    requires i <= |line|
  {
    match Run(line, canOpen, i, st)
    case Err(e, m) => Failed(e, m)
    case Ok(s) => Finish(s, canOpen)
  }

  /** One unfolding of Resume: a step that stops is the outcome, a step
      that continues resumes from the new position. */
  lemma ResumeStep(line: string, canOpen: string -> bool, i: nat, st: ScanState)
    requires i < |line|
    ensures Resume(line, canOpen, i, st) ==
            match Step(line, canOpen, i, st)
            case Stop(e, m) => Failed(e, m)
            case Next(j, s) => Resume(line, canOpen, j, s)
  {
  }

  /** The outcome of parsing a whole line. */
  function ParseLine(line: string, canOpen: string -> bool): ParseOutcome {
    Resume(line, canOpen, 0, START)
  }
}

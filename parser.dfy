/** The parser as the shell runs it: a CommandSet of PIPED_CMD_MAX command
    records and a PipeEnv pipe counter, filled in place by a single loop
    over the line, with a fixed TKN_MAX-character token buffer. */
module Parser {
  import opened ShellTypes
  import opened ParseSpec

  /** The commands of one pipeline: a fixed array of command records, of
      which the first numCmd are in use. */
  class CommandSet {
    const commands: array<Command>
    var numCmd: int

    constructor ()
      ensures commands.Length == PIPED_CMD_MAX && fresh(commands) && numCmd == 0
    {
      commands := new Command[PIPED_CMD_MAX](_ => FRESH_COMMAND);
      numCmd := 0;
    }
  }

  /** The pipes of one pipeline; only their number is modelled. */
  class PipeEnv {
    var numPipes: int

    constructor ()
      ensures numPipes == 0
    {
      numPipes := 0;
    }
  }

  /** Resets command record k to an initialised command. */
  method InitCommand(cmds: array<Command>, k: nat)
    requires k < cmds.Length
    modifies cmds
    ensures cmds[k] == FRESH_COMMAND
    ensures forall j :: 0 <= j < cmds.Length && j != k ==> cmds[j] == old(cmds[j])
  {
    cmds[k] := FRESH_COMMAND;
  }

  /** Copies the token segment[..length] into slot `target` of command k and
      clears the token buffer; on an empty token or a filename the oracle
      rejects, nothing changes and the reported error is returned. */
  method CopyToken(segment: array<char>, length: nat, mode: ParseMode, target: Slot,
                   cmds: array<Command>, k: nat, canOpen: string -> bool)
    returns (ok: bool, error: ParseError, errorMode: ParseMode, newLength: nat)
    requires length <= segment.Length && k < cmds.Length
    modifies segment, cmds
    ensures var copied := ParseSpec.CopyToken(old(segment[..length]), mode, target, old(cmds[k]), canOpen);
            && ok == copied.Ok?
            && (ok ==> cmds[k] == copied.value && newLength == 0
                       && forall j :: 0 <= j < segment.Length ==> segment[j] == '\0')
            && (!ok ==> copied == Err(error, errorMode) && newLength == length
                        && cmds[k] == old(cmds[k]) && segment[..] == old(segment[..]))
    ensures forall j :: 0 <= j < cmds.Length && j != k ==> cmds[j] == old(cmds[j])
  {
    var tok := segment[..length];
    if length == 0 {
      return false, MissingToken, mode, length;
    }
    if mode == SearchFilename && !canOpen(tok) {
      return false, BadFile, SearchCommand, length;
    }
    cmds[k] := WriteSlot(cmds[k], target, tok);
    forall j | 0 <= j < segment.Length {
      segment[j] := '\0';
    }
    ok, error, errorMode, newLength := true, MissingToken, mode, 0;
  }

  /** The scanner state the parser's variables stand for. */
  ghost function Snapshot(allCmd: CommandSet, pipeSet: PipeEnv, segment: array<char>, length: nat,
                          mode: ParseMode, target: Slot, sawSpace: bool, initSkip: bool): ScanState
    reads allCmd, allCmd.commands, pipeSet, segment
    requires 0 <= allCmd.numCmd < allCmd.commands.Length && length <= segment.Length
  {
    ScanState(allCmd.commands[..allCmd.numCmd], allCmd.commands[allCmd.numCmd],
              if pipeSet.numPipes < 0 then 0 else pipeSet.numPipes,
              segment[..length], mode, target, sawSpace, initSkip)
  }

  /** The block every flush point repeats: copy the token into the target
      slot of the current command, then refuse a seventeenth argument. */
  method FlushToken(allCmd: CommandSet, pipeSet: PipeEnv, segment: array<char>, length: nat,
                    mode: ParseMode, target: Slot, sawSpace: bool, initSkip: bool,
                    canOpen: string -> bool)
    returns (ok: bool, error: ParseError, errorMode: ParseMode, newLength: nat)
    requires 0 <= allCmd.numCmd < allCmd.commands.Length && length <= segment.Length
    modifies segment, allCmd.commands
    ensures var flushed := Flush(old(Snapshot(allCmd, pipeSet, segment, length, mode, target,
                                              sawSpace, initSkip)), canOpen);
            && ok == flushed.Ok?
            && (ok ==> newLength == 0
                       && Snapshot(allCmd, pipeSet, segment, 0, mode, target, sawSpace, initSkip)
                          == flushed.value)
            && (!ok ==> flushed == Err(error, errorMode))
  {
    var k := allCmd.numCmd;
    ghost var done := allCmd.commands[..k];
    ok, error, errorMode, newLength := CopyToken(segment, length, mode, target, allCmd.commands, k, canOpen);
    if !ok {
      return;
    }
    assert allCmd.commands[..k] == done;
    if |allCmd.commands[k].arguments| > ARGS_MAX {
      return false, ArgOverflow, SearchCommand, newLength;
    }
  }

  /** Case "|" of the scanning loop at position i: flush the token, refuse
      a pipe after a redirection and a fourth pipe, mark "|&", and open the
      next command. Reports whether it consumed a following "&". */
  method ScanPipe(allCmd: CommandSet, pipeSet: PipeEnv, segment: array<char>, length: nat,
                  readMode: ParseMode, target: Slot, encounterWhitespace: bool, initSkip: bool,
                  line: string, i: nat, canOpen: string -> bool)
    returns (ok: bool, error: ParseError, errorMode: ParseMode, skipped: bool, newLength: nat)
    requires allCmd.commands.Length == PIPED_CMD_MAX
    requires 0 <= allCmd.numCmd == pipeSet.numPipes < PIPED_CMD_MAX
    requires length <= segment.Length && i < |line| && line[i] == '|'
    modifies segment, allCmd, allCmd.commands, pipeSet
    ensures 0 <= allCmd.numCmd < PIPED_CMD_MAX
    ensures var r := AtPipe(line, canOpen, i, old(Snapshot(allCmd, pipeSet, segment, length, readMode, target,
                                                           encounterWhitespace, initSkip)));
            && (ok ==> allCmd.numCmd == pipeSet.numPipes && newLength == 0
                       && r == Next(if skipped then i + 2 else i + 1, Snapshot(allCmd, pipeSet, segment, 0, SearchCommand,
                                                   Arg(|allCmd.commands[allCmd.numCmd].arguments|),
                                                   false, true)))
            && (!ok ==> r == Stop(error, errorMode))
  {
    ghost var before := Snapshot(allCmd, pipeSet, segment, length, readMode, target,
                                 encounterWhitespace, initSkip);
    skipped := false;
    ok, error, errorMode, newLength := FlushToken(allCmd, pipeSet, segment, length, readMode, target,
                                                  encounterWhitespace, initSkip, canOpen);
    if !ok {
      return;
    }
    var k := allCmd.numCmd;
    if allCmd.commands[k].outputToFile {
      return false, MislocatedRedirect, SearchCommand, false, newLength;
    }
    pipeSet.numPipes := pipeSet.numPipes + 1;
    if pipeSet.numPipes > PIPED_CMD_MAX - 1 {
      return false, PipeOverflow, SearchCommand, false, newLength;
    }
    if i < |line| - 1 && line[i + 1] == '&' {
      allCmd.commands[k] := allCmd.commands[k].(errToPipe := true);
      skipped := true;
    }
    ghost var closed := allCmd.commands[..k + 1];
    allCmd.numCmd := allCmd.numCmd + 1;
    InitCommand(allCmd.commands, allCmd.numCmd);
    assert allCmd.commands[..allCmd.numCmd] == closed;
  }

  /** Case ">" of the scanning loop at position i: flush the token, mark
      the current command as writing to a file (and its error stream too
      for ">&"). Reports whether it consumed a following "&". */
  method ScanRedirect(allCmd: CommandSet, pipeSet: PipeEnv, segment: array<char>, length: nat,
                      readMode: ParseMode, target: Slot, encounterWhitespace: bool, initSkip: bool,
                      line: string, i: nat, canOpen: string -> bool)
    returns (ok: bool, error: ParseError, errorMode: ParseMode, skipped: bool, newLength: nat)
    requires 0 <= allCmd.numCmd < allCmd.commands.Length
    requires length <= segment.Length && i < |line| && line[i] == '>'
    modifies segment, allCmd.commands
    ensures var r := AtRedirect(line, canOpen, i, old(Snapshot(allCmd, pipeSet, segment, length, readMode,
                                                               target, encounterWhitespace, initSkip)));
            && (ok ==> newLength == 0
                       && r == Next(if skipped then i + 2 else i + 1, Snapshot(allCmd, pipeSet, segment, 0, SearchFilename, OutputName,
                                                   false, initSkip)))
            && (!ok ==> r == Stop(error, errorMode))
  {
    skipped := false;
    ok, error, errorMode, newLength := FlushToken(allCmd, pipeSet, segment, length, readMode, target,
                                                  encounterWhitespace, initSkip, canOpen);
    if !ok {
      return;
    }
    var k := allCmd.numCmd;
    ghost var done := allCmd.commands[..k];
    allCmd.commands[k] := allCmd.commands[k].(outputToFile := true);
    if i < |line| - 1 && line[i + 1] == '&' {
      allCmd.commands[k] := allCmd.commands[k].(errToFile := true);
      skipped := true;
    }
    assert allCmd.commands[..k] == done;
  }

  /** Default case of the scanning loop at position i: a character after a
      token boundary first flushes the token and targets the next argument
      slot; the character is then appended to the token buffer, which the
      fitting tokens never overrun. */
  method ScanOther(allCmd: CommandSet, pipeSet: PipeEnv, segment: array<char>, length: nat,
                   readMode: ParseMode, target: Slot, encounterWhitespace: bool, initSkip: bool,
                   line: string, i: nat, canOpen: string -> bool)
    returns (ok: bool, error: ParseError, errorMode: ParseMode, newLength: nat,
             newMode: ParseMode, newTarget: Slot)
    requires 0 <= allCmd.numCmd < allCmd.commands.Length
    requires segment.Length == TKN_MAX && length < TKN_MAX
    requires TokensFit(line) && i < |line| && TokenChar(line, i)
    requires initSkip ==> length == 0
    requires !encounterWhitespace ==> length <= i && forall j :: i - length <= j < i ==> TokenChar(line, j)
    modifies segment, allCmd.commands
    ensures var r := AtOther(line[i], canOpen, i, old(Snapshot(allCmd, pipeSet, segment, length, readMode,
                                                              target, encounterWhitespace, initSkip)));
            && (ok ==> && 0 < newLength < TKN_MAX && newLength <= i + 1
                       && (forall j :: i + 1 - newLength <= j <= i ==> TokenChar(line, j))
                       && r == Next(i + 1, Snapshot(allCmd, pipeSet, segment, newLength, newMode, newTarget,
                                                    false, false)))
            && (!ok ==> r == Stop(error, errorMode))
  {
    var readChar := line[i];
    newLength, newMode, newTarget := length, readMode, target;
    error, errorMode := MissingToken, readMode;
    if encounterWhitespace && !initSkip {
      ok, error, errorMode, newLength := FlushToken(allCmd, pipeSet, segment, length, readMode, target,
                                                    encounterWhitespace, initSkip, canOpen);
      if !ok {
        return;
      }
      newTarget := Arg(|allCmd.commands[allCmd.numCmd].arguments|);
      newMode := SearchCommand;
    }
    TokenRunFits(line, i, newLength);
    ghost var token := segment[..newLength];
    segment[newLength] := readChar;
    newLength := newLength + 1;
    assert segment[..newLength] == token + [readChar];
    ok := true;
  }

  /** One turn of the scanning loop: the switch on the character at
      position i. On success it returns the position of the next character
      to read and the parser variables after the turn; a consumed "&" after
      "|" or ">" is skipped. */
  method ScanChar(allCmd: CommandSet, pipeSet: PipeEnv, segment: array<char>, length: nat,
                  readMode: ParseMode, target: Slot, encounterWhitespace: bool, initSkip: bool,
                  line: string, i: nat, canOpen: string -> bool)
    returns (ok: bool, error: ParseError, errorMode: ParseMode, next: nat, newLength: nat,
             newMode: ParseMode, newTarget: Slot, newWhitespace: bool, newInitSkip: bool)
    requires allCmd.commands.Length == PIPED_CMD_MAX
    requires 0 <= allCmd.numCmd == pipeSet.numPipes < PIPED_CMD_MAX
    requires segment.Length == TKN_MAX && length < TKN_MAX
    requires TokensFit(line) && i < |line| && !Consumed(line, i)
    requires initSkip ==> length == 0
    requires !encounterWhitespace ==> length <= i && forall j :: i - length <= j < i ==> TokenChar(line, j)
    modifies segment, allCmd, allCmd.commands, pipeSet
    ensures 0 <= allCmd.numCmd < PIPED_CMD_MAX
    ensures var r := Step(line, canOpen, i, old(Snapshot(allCmd, pipeSet, segment, length, readMode, target,
                                                         encounterWhitespace, initSkip)));
            && (ok ==> && 0 <= allCmd.numCmd == pipeSet.numPipes < PIPED_CMD_MAX && newLength < TKN_MAX
                       && r == Next(next, Snapshot(allCmd, pipeSet, segment, newLength, newMode, newTarget,
                                                   newWhitespace, newInitSkip))
                       && next <= |line| && (newInitSkip ==> newLength == 0)
                       && (!newWhitespace ==> newLength <= next
                                              && forall j :: next - newLength <= j < next ==> TokenChar(line, j))
                       && (next < |line| ==> !Consumed(line, next)))
            && (!ok ==> r == Stop(error, errorMode))
  {
    ghost var before := Snapshot(allCmd, pipeSet, segment, length, readMode, target,
                                 encounterWhitespace, initSkip);
    var readChar := line[i];
    newLength, newMode, newTarget, newWhitespace, newInitSkip := length, readMode, target, encounterWhitespace, initSkip;
    next := i + 1;
    if readChar == '|' {
      var skipped;
      ok, error, errorMode, skipped, newLength := ScanPipe(allCmd, pipeSet, segment, length, readMode, target,
                                                           encounterWhitespace, initSkip, line, i, canOpen);
      if skipped {
        next := i + 2;
      }
      newTarget := Arg(|allCmd.commands[allCmd.numCmd].arguments|);
      newMode, newWhitespace, newInitSkip := SearchCommand, false, true;
    } else if readChar == '>' {
      var skipped;
      ok, error, errorMode, skipped, newLength := ScanRedirect(allCmd, pipeSet, segment, length, readMode, target,
                                                               encounterWhitespace, initSkip, line, i, canOpen);
      if skipped {
        next := i + 2;
      }
      newMode, newTarget, newWhitespace := SearchFilename, OutputName, false;
    } else if readChar == ' ' {
      ok, error, errorMode := true, MissingToken, readMode;
      if readMode == SearchCommand {
        newWhitespace := true;
      }
      if readMode == SearchFilename && length > 0 {
        newWhitespace := true;
      }
    } else {
      ok, error, errorMode, newLength, newMode, newTarget :=
        ScanOther(allCmd, pipeSet, segment, length, readMode, target, encounterWhitespace, initSkip,
                  line, i, canOpen);
      newWhitespace, newInitSkip := false, false;
    }
  }

  /** The end of the line: a hanging "|" or ">" is a missing token, a line
      without any token fails without a message, and otherwise the last token
      is flushed and the current command closes the pipeline. */
  method FinishScan(allCmd: CommandSet, pipeSet: PipeEnv, segment: array<char>, length: nat,
                    readMode: ParseMode, target: Slot, encounterWhitespace: bool, initSkip: bool,
                    canOpen: string -> bool)
    returns (failed: bool, outcome: ParseOutcome)
    requires allCmd.commands.Length == PIPED_CMD_MAX
    requires 0 <= allCmd.numCmd == pipeSet.numPipes < PIPED_CMD_MAX
    requires length <= segment.Length
    modifies segment, allCmd, allCmd.commands
    ensures outcome == Finish(old(Snapshot(allCmd, pipeSet, segment, length, readMode, target,
                                           encounterWhitespace, initSkip)), canOpen)
    ensures failed <==> !outcome.Parsed?
    ensures 0 <= allCmd.numCmd <= PIPED_CMD_MAX
    ensures outcome.Parsed? ==>
              && allCmd.numCmd == |outcome.commands|
              && allCmd.commands[..allCmd.numCmd] == outcome.commands
              && pipeSet.numPipes == outcome.numPipes
  {
    if length == 0 {
      if |allCmd.commands[0].arguments| > 0 {
        return true, Failed(MissingToken, readMode);
      }
      return true, Blank;
    }
    var ok, error, errorMode, newLength := FlushToken(allCmd, pipeSet, segment, length, readMode, target,
                                                      encounterWhitespace, initSkip, canOpen);
    if !ok {
      return true, Failed(error, errorMode);
    }
    allCmd.numCmd := allCmd.numCmd + 1;
    return false, Parsed(allCmd.commands[..allCmd.numCmd], pipeSet.numPipes);
  }

  /** Splits the line into commands, one character at a time, and reports
      the first violation. The outcome is the one ParseLine specifies; on
      success the first numCmd records of allCmd and the pipe count of
      pipeSet hold the pipeline. The token buffer has TKN_MAX characters and
      is never bounds-checked, so every token must fit it. */
  method ParseCmd(allCmd: CommandSet, pipeSet: PipeEnv, line: string, canOpen: string -> bool)
    returns (failed: bool, outcome: ParseOutcome)
    requires allCmd.commands.Length == PIPED_CMD_MAX
    requires TokensFit(line)
    modifies allCmd, allCmd.commands, pipeSet
    ensures outcome == ParseLine(line, canOpen)
    ensures failed <==> !outcome.Parsed?
    ensures 0 <= allCmd.numCmd <= PIPED_CMD_MAX
    ensures outcome.Parsed? ==>
              && allCmd.numCmd == |outcome.commands|
              && allCmd.commands[..allCmd.numCmd] == outcome.commands
              && pipeSet.numPipes == outcome.numPipes
  {
    var segment := new char[TKN_MAX](_ => '\0');
    var length: nat := 0;
    var readMode := SearchCommand;
    var encounterWhitespace := false;
    var initSkip := true;

    allCmd.numCmd := 0;
    pipeSet.numPipes := 0;
    InitCommand(allCmd.commands, allCmd.numCmd);
    var target := Arg(|allCmd.commands[allCmd.numCmd].arguments|);
    assert allCmd.commands[..0] == [];

    var i := 0;
    while i < |line|
      invariant 0 <= i <= |line|
      invariant 0 <= allCmd.numCmd == pipeSet.numPipes < PIPED_CMD_MAX
      invariant length < TKN_MAX
      invariant initSkip ==> length == 0
      invariant !encounterWhitespace ==>
                  length <= i && forall j :: i - length <= j < i ==> TokenChar(line, j)
      invariant i < |line| ==> !Consumed(line, i)
      invariant Resume(line, canOpen, i, Snapshot(allCmd, pipeSet, segment, length, readMode, target,
                                                   encounterWhitespace, initSkip))
                == ParseLine(line, canOpen)
    {
      ResumeStep(line, canOpen, i, Snapshot(allCmd, pipeSet, segment, length, readMode, target,
                                            encounterWhitespace, initSkip));
      var ok, error, errorMode, next;
      ok, error, errorMode, next, length, readMode, target, encounterWhitespace, initSkip :=
        ScanChar(allCmd, pipeSet, segment, length, readMode, target, encounterWhitespace, initSkip,
                 line, i, canOpen);
      if !ok {
        return true, Failed(error, errorMode);
      }
      i := next;
    }
    failed, outcome := FinishScan(allCmd, pipeSet, segment, length, readMode, target,
                                  encounterWhitespace, initSkip, canOpen);
  }
}

/** What the shell does with an accepted pipeline, as decisions rather
    than system calls: which pipe end or file each stage's standard streams
    are connected to, how the children's exit statuses are recorded, and
    which builtin the first command's name selects. */
module Execution {
  import opened ShellTypes
  import opened ParseSpec
  import opened ParseProps
  import opened Parser

  /** Where a stage reads its standard input; an inherited stream is the
      shell's own. */
  datatype Input = Inherited | FromPipe(pipe: nat)

  /** Where a stage writes its standard output or standard error; an
      inherited stream is the shell's own. */
  datatype Output = Inherited | ToPipe(pipe: nat) | ToFile(name: string)

  /** The descriptors a stage runs with. */
  datatype Wiring = Wiring(stdin: Input, stdout: Output, stderr: Output)

  /** The stdin, stdout and stderr of stage k of a pipeline of n stages:
      the child first connects stdout to pipe k unless it is the last
      stage, stdin to pipe k - 1 unless it is the first, and stderr to pipe
      k when asked to; RunCommand then sends stdout to the output file, and
      stderr too for ">&", overriding the pipes. */
  function StageWiring(cmd: Command, k: nat, n: nat): (w: Wiring)
    ensures (w.stdin.FromPipe? <==> k > 0) && (w.stdin.FromPipe? ==> w.stdin.pipe == k - 1)
    ensures cmd.outputToFile ==> w.stdout == ToFile(cmd.outputName)
    ensures !cmd.outputToFile ==> (w.stdout.ToPipe? <==> k + 1 < n) && !w.stdout.ToFile?
    ensures w.stdout.ToPipe? ==> w.stdout.pipe == k
    ensures w.stderr.ToFile? <==> cmd.outputToFile && cmd.errToFile
    ensures w.stderr.ToPipe? <==> cmd.errToPipe && !(cmd.outputToFile && cmd.errToFile)
    ensures w.stderr.ToPipe? ==> w.stderr.pipe == k
    ensures w.stderr.ToFile? ==> w.stderr.name == cmd.outputName
  {
    var stdin := if k > 0 then FromPipe(k - 1) else Input.Inherited;
    var stdout := if n - 1 > k then ToPipe(k) else Output.Inherited;
    var stderr := if cmd.errToPipe then ToPipe(k) else Output.Inherited;
    if cmd.outputToFile then
      Wiring(stdin, ToFile(cmd.outputName), if cmd.errToFile then ToFile(cmd.outputName) else stderr)
    else
      Wiring(stdin, stdout, stderr)
  }

  /** The pipe an end of a stage uses, if any. */
  predicate InputBelow(i: Input, numPipes: nat) {
    i.FromPipe? ==> i.pipe < numPipes
  }

  predicate OutputBelow(o: Output, numPipes: nat) {
    o.ToPipe? ==> o.pipe < numPipes
  }

  /** The plan for every stage of an accepted pipeline: stage k reads pipe
      k - 1 after the first stage and writes pipe k before the last one,
      stderr follows the pipe only for "|&", the last stage writes to the
      shell's output or its file, and no stage touches a pipe that is not open. */
  lemma PipelineWiring(cmds: seq<Command>, numPipes: nat, canOpen: string -> bool)
    requires WellFormedPipeline(cmds, numPipes, canOpen)
    ensures forall k :: 0 <= k < |cmds| ==>
              var w := StageWiring(cmds[k], k, |cmds|);
              && w.stdin == (if k == 0 then Input.Inherited else FromPipe(k - 1))
              && w.stdout == (if k < numPipes then ToPipe(k)
                              else if cmds[k].outputToFile then ToFile(cmds[k].outputName)
                              else Output.Inherited)
              && w.stderr == (if cmds[k].errToFile then ToFile(cmds[k].outputName)
                              else if cmds[k].errToPipe then ToPipe(k)
                              else Output.Inherited)
              && InputBelow(w.stdin, numPipes) && OutputBelow(w.stdout, numPipes)
              && OutputBelow(w.stderr, numPipes)
    ensures forall k :: 0 <= k < numPipes ==>
              StageWiring(cmds[k], k, |cmds|).stdout == ToPipe(k)
              && StageWiring(cmds[k + 1], k + 1, |cmds|).stdin == FromPipe(k)
  {
  }

  /** Every line the parser accepts yields a plan that connects each stage
      to the next through its own pipe and uses only the pipes opened for
      it. */
  lemma ParsedWiring(line: string, canOpen: string -> bool)
    requires ParseLine(line, canOpen).Parsed?
    ensures var o := ParseLine(line, canOpen);
            && |o.commands| == o.numPipes + 1
            && (forall k :: 0 <= k < |o.commands| ==>
                  var w := StageWiring(o.commands[k], k, |o.commands|);
                  InputBelow(w.stdin, o.numPipes) && OutputBelow(w.stdout, o.numPipes)
                  && OutputBelow(w.stderr, o.numPipes))
            && (forall k :: 0 <= k < o.numPipes ==>
                  StageWiring(o.commands[k], k, |o.commands|).stdout == ToPipe(k)
                  && StageWiring(o.commands[k + 1], k + 1, |o.commands|).stdin == FromPipe(k))
  {
    ParsedPipeline(line, canOpen);
    var o := ParseLine(line, canOpen);
    PipelineWiring(o.commands, o.numPipes, canOpen);
  }

  /** The exit code in a wait status (WEXITSTATUS): bits 8 to 15. */
  function ExitCode(status: bv32): (c: bv8)
    ensures (c as bv32) << 8 == status & 0xff00
  {
    ((status >> 8) & 0xff) as bv8
  }

  /** The parent's loop after the children were started: it waits for the
      children in stage order and records the exit code of the j-th wait
      status, statuses[j], as the exit status of command j. */
  method RecordExitStatuses(allCmd: CommandSet, statuses: seq<bv32>)
    requires 0 <= allCmd.numCmd <= allCmd.commands.Length && |statuses| == allCmd.numCmd
    modifies allCmd.commands
    ensures forall j :: 0 <= j < allCmd.numCmd ==>
              allCmd.commands[j] == old(allCmd.commands[j]).(exitStatus := ExitCode(statuses[j]) as int)
    ensures forall j :: allCmd.numCmd <= j < allCmd.commands.Length ==>
              allCmd.commands[j] == old(allCmd.commands[j])
  {
    var j := 0;
    while j < allCmd.numCmd
      invariant 0 <= j <= allCmd.numCmd
      invariant forall m :: 0 <= m < j ==>
                  allCmd.commands[m] == old(allCmd.commands[m]).(exitStatus := ExitCode(statuses[m]) as int)
      invariant forall m :: j <= m < allCmd.commands.Length ==> allCmd.commands[m] == old(allCmd.commands[m])
    {
      allCmd.commands[j] := allCmd.commands[j].(exitStatus := ExitCode(statuses[j]) as int);
      j := j + 1;
    }
  }

  /** What the shell does with an accepted line, chosen by the name of its
      first command. */
  datatype Builtin = Exit | Cd | Pwd | Sls | External

  /** The name that selects a builtin. */
  function BuiltinName(b: Builtin): string
    requires b != External
  {
    match b
    case Exit => "exit"
    case Cd => "cd"
    case Pwd => "pwd"
    case Sls => "sls"
  }

  /** The builtin a first command's name selects: a builtin exactly when
      the name is that builtin's name, and the pipeline otherwise. */
  function Dispatch(name: string): (b: Builtin)
    ensures b != External ==> BuiltinName(b) == name
    ensures b == External ==> forall c :: c != External ==> BuiltinName(c) != name
  {
    if name == "exit" then Exit
    else if name == "cd" then Cd
    else if name == "pwd" then Pwd
    else if name == "sls" then Sls
    else External
  }

  /** Every builtin is selected by its name. */
  lemma DispatchByName(b: Builtin)
    requires b != External
    ensures Dispatch(BuiltinName(b)) == b
  {
  }
}

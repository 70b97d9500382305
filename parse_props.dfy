/** What the parser guarantees about a line it accepts: the shape of the
    pipeline (at most four stages, one to sixteen arguments each, only the
    last stage redirected), how the pipeline reflects the "|", ">", "|&" and
    ">&" of the line, and which lines fail silently or with a missing token.
    Each guarantee is carried by an invariant of the scanner states that
    ParseLine passes through. */
module ParseProps {
  import opened ShellTypes
  import opened ParseSpec

  /** No character of t ends a token. */
  predicate NoSeparator(t: string) {
    forall k :: 0 <= k < |t| ==> !IsSeparator(t[k])
  }

  /** A stored argument or filename: non-empty, without a separator. */
  predicate ValidToken(t: string) {
    |t| > 0 && NoSeparator(t)
  }

  /** Every stage of an accepted pipeline: one to ARGS_MAX valid arguments,
      stderr to a file only together with stdout, a redirection only to a
      valid name the oracle accepts, the " " sentinel otherwise, and an
      exit status still 0. */
  predicate StageOk(c: Command, canOpen: string -> bool) {
    && 1 <= |c.arguments| <= ARGS_MAX
    && (forall k :: 0 <= k < |c.arguments| ==> ValidToken(c.arguments[k]))
    && (c.errToFile ==> c.outputToFile)
    && (c.outputToFile ==> ValidToken(c.outputName) && canOpen(c.outputName))
    && (!c.outputToFile ==> c.outputName == " ")
    && c.exitStatus == 0
  }

  /** An accepted pipeline: one stage more than pipes, at most
      PIPED_CMD_MAX stages, every stage well formed, no stage but the last
      redirected, and the last not piping its error stream. */
  predicate WellFormedPipeline(cmds: seq<Command>, numPipes: nat, canOpen: string -> bool) {
    && |cmds| == numPipes + 1 <= PIPED_CMD_MAX
    && (forall k :: 0 <= k < |cmds| ==> StageOk(cmds[k], canOpen))
    && (forall k :: 0 <= k < |cmds| - 1 ==> !cmds[k].outputToFile)
    && !cmds[|cmds| - 1].errToPipe
  }

  /** The line has the two-character operator a b (such as "|&") ending
      before position i. */
  predicate PairBefore(line: string, i: nat, a: char, b: char)
    requires i <= |line|
  {
    exists k :: 0 <= k && k + 1 < i && line[k] == a && line[k + 1] == b
  }

  /** No "|" follows a ">" before position i. */
  predicate NoPipeAfterRedirect(line: string, i: nat)
    requires i <= |line|
  {
    forall j, k :: 0 <= j < k < i && line[j] == '>' ==> line[k] != '|'
  }

  /** Some of the stages pipe their error stream too. */
  predicate SomeErrToPipe(cmds: seq<Command>) {
    exists k :: 0 <= k < |cmds| && cmds[k].errToPipe
  }

  lemma SomeErrToPipeAppend(cmds: seq<Command>, c: Command)
    ensures SomeErrToPipe(cmds + [c]) <==> SomeErrToPipe(cmds) || c.errToPipe
  {
    if SomeErrToPipe(cmds) {
      var k :| 0 <= k < |cmds| && cmds[k].errToPipe;
      assert (cmds + [c])[k].errToPipe;
    }
    if c.errToPipe {
      assert (cmds + [c])[|cmds|].errToPipe;
    }
  }

  /** The command being built, with the read mode and the target slot. */
  predicate OpenCommandOk(st: ScanState, canOpen: string -> bool) {
    var c := st.cur;
    && |c.arguments| <= ARGS_MAX
    && (forall k :: 0 <= k < |c.arguments| ==> ValidToken(c.arguments[k]))
    && !c.errToPipe && c.exitStatus == 0
    && (c.errToFile ==> c.outputToFile)
    && (!c.outputToFile ==> c.outputName == " ")
    && (st.mode == SearchFilename <==> st.target == OutputName)
    && (st.mode == SearchFilename ==> c.outputToFile && |c.arguments| >= 1)
    && (c.outputToFile && st.mode == SearchCommand ==> ValidToken(c.outputName) && canOpen(c.outputName))
    && (st.target.Arg? ==> st.target.index == |c.arguments|)
    && NoSeparator(st.token)
    && (st.initSkip ==> st.token == [] && c.arguments == [])
  }

  /** Every scanner state the parser reaches without an error. */
  predicate ScanInv(st: ScanState, canOpen: string -> bool) {
    && |st.done| == st.numPipes < PIPED_CMD_MAX
    && (forall k :: 0 <= k < |st.done| ==> StageOk(st.done[k], canOpen) && !st.done[k].outputToFile)
    && OpenCommandOk(st, canOpen)
    && (|st.done| > 0 || !st.initSkip ==> |FirstCommand(st).arguments| > 0 || |st.token| > 0)
  }

  /** How the state reached at position i reflects the characters read. */
  predicate LineInv(line: string, i: nat, st: ScanState)
    requires i <= |line|
  {
    && st.numPipes == multiset(line[..i])['|']
    && (st.cur.outputToFile <==> '>' in line[..i])
    && (st.cur.errToFile <==> PairBefore(line, i, '>', '&'))
    && (SomeErrToPipe(st.done) <==> PairBefore(line, i, '|', '&'))
    && NoPipeAfterRedirect(line, i)
    && (|st.done| == 0 && st.initSkip <==> forall k :: 0 <= k < i ==> line[k] == ' ')
  }

  /** The invariant of the scan at position i. */
  predicate Inv(line: string, canOpen: string -> bool, i: nat, st: ScanState)
    requires i <= |line|
  {
    ScanInv(st, canOpen) && LineInv(line, i, st) && (i < |line| ==> !Consumed(line, i))
  }

  lemma StartInv(line: string, canOpen: string -> bool)
    ensures Inv(line, canOpen, 0, START)
  {
  }

  /** A successful flush closes the current command into a well-formed
      stage and changes nothing but the stored token. */
  lemma FlushStage(st: ScanState, canOpen: string -> bool)
    requires ScanInv(st, canOpen) && Flush(st, canOpen).Ok?
    ensures var s := Flush(st, canOpen).value;
            && StageOk(s.cur, canOpen)
            && s == st.(cur := s.cur, token := [])
            && |st.token| > 0
            && s.cur == WriteSlot(st.cur, st.target, st.token)
  {
  }

  /** Reading the character at i, and a consumed "&" after it when j is
      i + 2, adds that character to the characters read. */
  lemma SeenStep(line: string, i: nat, j: nat)
    requires i < j <= |line| && j <= i + 2
    requires j == i + 2 ==> line[i + 1] == '&'
    ensures multiset(line[..j])['|'] == multiset(line[..i])['|'] + if line[i] == '|' then 1 else 0
    ensures '>' in line[..j] <==> '>' in line[..i] || line[i] == '>'
  {
    assert line[..j] == line[..i] + line[i..j];
    if j == i + 1 {
      assert line[i..j] == [line[i]];
    } else {
      assert line[i..j] == [line[i], '&'];
    }
  }

  /** Reading on from i to j adds no occurrence of the operator a b when
      no occurrence ends in between. */
  lemma PairBeforeSame(line: string, i: nat, j: nat, a: char, b: char)
    requires i <= j <= |line|
    requires forall k :: 0 <= k && i <= k + 1 < j ==> !(line[k] == a && line[k + 1] == b)
    ensures PairBefore(line, j, a, b) <==> PairBefore(line, i, a, b)
  {
    if PairBefore(line, j, a, b) {
      var k :| 0 <= k && k + 1 < j && line[k] == a && line[k + 1] == b;
      assert k + 1 < i;
    }
  }

  /** "|" keeps the invariant of the commands. */
  lemma PipeKeepsCommands(line: string, canOpen: string -> bool, i: nat, st: ScanState)
    requires i < |line| && line[i] == '|' && Inv(line, canOpen, i, st)
    ensures var r := AtPipe(line, canOpen, i, st);
            r.Next? ==> ScanInv(r.state, canOpen)
  {
    var r := AtPipe(line, canOpen, i, st);
    if r.Next? {
      FlushStage(st, canOpen);
    }
  }

  /** Reading "|" (or "|&" up to j) keeps the line invariant for the state
      that closes a command without a redirection and opens a fresh one. */
  lemma PipeLine(line: string, i: nat, j: nat, st: ScanState, t: ScanState, closed: Command)
    requires i < |line| && line[i] == '|' && !Consumed(line, i) && LineInv(line, i, st)
    requires j == i + 1 || (j == i + 2 && AmpFollows(line, i))
    requires j == i + 1 ==> !AmpFollows(line, i)
    requires !st.cur.outputToFile && closed.errToPipe == (j == i + 2)
    requires t.numPipes == st.numPipes + 1 && t.done == st.done + [closed]
    requires !t.cur.outputToFile && !t.cur.errToFile && t.initSkip
    ensures LineInv(line, j, t) && (j < |line| ==> !Consumed(line, j))
  {
    SeenStep(line, i, j);
    SomeErrToPipeAppend(st.done, closed);
    if j == i + 2 {
      assert line[i] == '|' && line[i + 1] == '&';
    } else {
      PairBeforeSame(line, i, j, '|', '&');
    }
    PairBeforeSame(line, i, j, '>', '&');
    assert line[i] != ' ';
  }

  /** "|" keeps the invariant of the characters read. */
  lemma PipeKeepsLine(line: string, canOpen: string -> bool, i: nat, st: ScanState)
    requires i < |line| && line[i] == '|' && Inv(line, canOpen, i, st)
    ensures var r := AtPipe(line, canOpen, i, st);
            r.Next? ==> r.pos <= |line| && LineInv(line, r.pos, r.state)
                        && (r.pos < |line| ==> !Consumed(line, r.pos))
  {
    var r := AtPipe(line, canOpen, i, st);
    if r.Next? {
      FlushStage(st, canOpen);
      PipeLine(line, i, r.pos, st, r.state, r.state.done[|st.done|]);
    }
  }

  /** ">" keeps the invariant of the commands. */
  lemma RedirectKeepsCommands(line: string, canOpen: string -> bool, i: nat, st: ScanState)
    requires i < |line| && line[i] == '>' && Inv(line, canOpen, i, st)
    ensures var r := AtRedirect(line, canOpen, i, st);
            r.Next? ==> ScanInv(r.state, canOpen)
  {
    var r := AtRedirect(line, canOpen, i, st);
    if r.Next? {
      FlushStage(st, canOpen);
    }
  }

  /** Reading ">" (or ">&" up to j) keeps the line invariant for the state
      whose current command now redirects its output. */
  lemma RedirectLine(line: string, i: nat, j: nat, st: ScanState, t: ScanState)
    requires i < |line| && line[i] == '>' && !Consumed(line, i) && LineInv(line, i, st)
    requires j == i + 1 || (j == i + 2 && AmpFollows(line, i))
    requires j == i + 1 ==> !AmpFollows(line, i)
    requires t.numPipes == st.numPipes && t.done == st.done
    requires t.cur.outputToFile && t.cur.errToFile == (st.cur.errToFile || j == i + 2)
    requires t.initSkip == st.initSkip && !st.initSkip
    ensures LineInv(line, j, t) && (j < |line| ==> !Consumed(line, j))
  {
    SeenStep(line, i, j);
    PairBeforeSame(line, i, j, '|', '&');
    if j == i + 2 {
      assert line[i] == '>' && line[i + 1] == '&';
    } else {
      PairBeforeSame(line, i, j, '>', '&');
    }
    assert !(forall k :: 0 <= k < j ==> line[k] == ' ');
    assert NoPipeAfterRedirect(line, j) by {
      forall a, b | 0 <= a < b < j && line[a] == '>'
        ensures line[b] != '|'
      {
      }
    }
  }

  /** ">" keeps the invariant of the characters read. */
  lemma RedirectKeepsLine(line: string, canOpen: string -> bool, i: nat, st: ScanState)
    requires i < |line| && line[i] == '>' && Inv(line, canOpen, i, st)
    ensures var r := AtRedirect(line, canOpen, i, st);
            r.Next? ==> r.pos <= |line| && LineInv(line, r.pos, r.state)
                        && (r.pos < |line| ==> !Consumed(line, r.pos))
  {
    var r := AtRedirect(line, canOpen, i, st);
    if r.Next? {
      FlushStage(st, canOpen);
      RedirectLine(line, i, r.pos, st, r.state);
    }
  }

  /** Reading one character that is neither "|" nor ">" keeps the line
      invariant for a state with the same pipes and redirections. */
  lemma LineAdvance(line: string, i: nat, st: ScanState, t: ScanState)
    requires i < |line| && line[i] != '|' && line[i] != '>' && !Consumed(line, i)
    requires LineInv(line, i, st)
    requires t.numPipes == st.numPipes && t.done == st.done
    requires t.cur.outputToFile == st.cur.outputToFile && t.cur.errToFile == st.cur.errToFile
    requires |t.done| == 0 && t.initSkip <==> |st.done| == 0 && st.initSkip && line[i] == ' '
    ensures LineInv(line, i + 1, t)
  {
    SeenStep(line, i, i + 1);
    PairBeforeSame(line, i, i + 1, '|', '&');
    PairBeforeSame(line, i, i + 1, '>', '&');
  }

  /** " " keeps the invariant. */
  lemma SpaceKeeps(line: string, canOpen: string -> bool, i: nat, st: ScanState)
    requires i < |line| && line[i] == ' ' && Inv(line, canOpen, i, st)
    ensures var r := AtSpace(i, st);
            r.pos <= |line| && Inv(line, canOpen, r.pos, r.state)
  {
    LineAdvance(line, i, st, AtSpace(i, st).state);
  }

  /** Any other character after a token boundary: the pending token is
      flushed and the character starts a new argument. */
  lemma OtherFlushKeeps(line: string, canOpen: string -> bool, i: nat, st: ScanState)
    requires i < |line| && !IsSeparator(line[i]) && Inv(line, canOpen, i, st)
    requires st.sawSpace && !st.initSkip
    ensures var r := AtOther(line[i], canOpen, i, st);
            r.Next? ==> r.pos <= |line| && Inv(line, canOpen, r.pos, r.state)
  {
    var r := AtOther(line[i], canOpen, i, st);
    if r.Next? {
      FlushStage(st, canOpen);
      assert NoSeparator([line[i]]);
      LineAdvance(line, i, st, r.state);
    }
  }

  /** Any other character elsewhere extends the token. */
  lemma OtherAppendKeeps(line: string, canOpen: string -> bool, i: nat, st: ScanState)
    requires i < |line| && !IsSeparator(line[i]) && Inv(line, canOpen, i, st)
    requires !(st.sawSpace && !st.initSkip)
    ensures var r := AtOther(line[i], canOpen, i, st);
            r.pos <= |line| && Inv(line, canOpen, r.pos, r.state)
  {
    var r := AtOther(line[i], canOpen, i, st);
    assert NoSeparator(st.token + [line[i]]);
    LineAdvance(line, i, st, r.state);
  }

  /** One step keeps the invariant. */
  lemma StepKeeps(line: string, canOpen: string -> bool, i: nat, st: ScanState)
    requires i < |line| && Inv(line, canOpen, i, st)
    ensures var r := Step(line, canOpen, i, st);
            && (r.Next? ==> Inv(line, canOpen, r.pos, r.state))
            && (r.Stop? ==> line[i] != ' ')
  {
    match line[i]
    case '|' =>
      PipeKeepsCommands(line, canOpen, i, st);
      PipeKeepsLine(line, canOpen, i, st);
    case '>' =>
      RedirectKeepsCommands(line, canOpen, i, st);
      RedirectKeepsLine(line, canOpen, i, st);
    case ' ' => SpaceKeeps(line, canOpen, i, st);
    case c =>
      if st.sawSpace && !st.initSkip {
        OtherFlushKeeps(line, canOpen, i, st);
      } else {
        OtherAppendKeeps(line, canOpen, i, st);
      }
  }

  /** The scan keeps the invariant to the end of the line, and stops only
      at a character other than " ". */
  lemma {:induction false} RunKeeps(line: string, canOpen: string -> bool, i: nat, st: ScanState)
    requires i <= |line| && Inv(line, canOpen, i, st)
    ensures var r := Run(line, canOpen, i, st);
            && (r.Ok? ==> Inv(line, canOpen, |line|, r.value))
            && (r.Err? ==> exists k :: i <= k < |line| && line[k] != ' ')
    decreases |line| - i
  {
    if i < |line| {
      StepKeeps(line, canOpen, i, st);
      match Step(line, canOpen, i, st)
      case Stop(_, _) =>
      case Next(j, s) => RunKeeps(line, canOpen, j, s);
    }
  }

  /** The end of the line turns an invariant state into a well-formed
      pipeline that reflects the operators of the line, and into the silent
      failure exactly for a line of spaces. */
  lemma FinishKeeps(line: string, canOpen: string -> bool, st: ScanState)
    requires Inv(line, canOpen, |line|, st)
    ensures var o := Finish(st, canOpen);
            && (o.Parsed? ==>
                  && WellFormedPipeline(o.commands, o.numPipes, canOpen)
                  && o.numPipes == multiset(line)['|']
                  && (o.commands[|o.commands| - 1].outputToFile <==> '>' in line)
                  && (o.commands[|o.commands| - 1].errToFile <==> PairBefore(line, |line|, '>', '&'))
                  && (SomeErrToPipe(o.commands) <==> PairBefore(line, |line|, '|', '&'))
                  && NoPipeAfterRedirect(line, |line|))
            && (o == Blank <==> forall k :: 0 <= k < |line| ==> line[k] == ' ')
  {
    assert line[..|line|] == line;
    var o := Finish(st, canOpen);
    if o.Parsed? {
      FlushStage(st, canOpen);
      var s := Flush(st, canOpen).value;
      assert o.commands == s.done + [s.cur];
      SomeErrToPipeAppend(s.done, s.cur);
    }
  }

  /** Every line the parser accepts yields a well-formed pipeline with one
      stage per "|" plus one, whose last stage redirects exactly when the
      line has a ">", and does so for stderr too exactly when it has a ">&";
      a stage pipes its error stream exactly when the line has a "|&"; no
      "|" follows a ">". The parser fails silently exactly on a line of
      spaces. */
  lemma ParsedPipeline(line: string, canOpen: string -> bool)
    ensures var o := ParseLine(line, canOpen);
            && (o.Parsed? ==>
                  && WellFormedPipeline(o.commands, o.numPipes, canOpen)
                  && o.numPipes == multiset(line)['|']
                  && (o.commands[|o.commands| - 1].outputToFile <==> '>' in line)
                  && (o.commands[|o.commands| - 1].errToFile <==> PairBefore(line, |line|, '>', '&'))
                  && (SomeErrToPipe(o.commands) <==> PairBefore(line, |line|, '|', '&'))
                  && NoPipeAfterRedirect(line, |line|))
            && (o == Blank <==> forall k :: 0 <= k < |line| ==> line[k] == ' ')
  {
    StartInv(line, canOpen);
    RunKeeps(line, canOpen, 0, START);
    match Run(line, canOpen, 0, START)
    case Ok(s) => FinishKeeps(line, canOpen, s);
    case Err(_, _) =>
  }

  /** A line with a fourth "|" is never accepted. */
  lemma TooManyPipesRejected(line: string, canOpen: string -> bool)
    requires multiset(line)['|'] >= PIPED_CMD_MAX
    ensures !ParseLine(line, canOpen).Parsed?
  {
    ParsedPipeline(line, canOpen);
  }

  /** A line with a "|" after a ">" is never accepted. */
  lemma PipeAfterRedirectRejected(line: string, canOpen: string -> bool, j: nat, k: nat)
    requires j < k < |line| && line[j] == '>' && line[k] == '|'
    ensures !ParseLine(line, canOpen).Parsed?
  {
    ParsedPipeline(line, canOpen);
  }

  /** Leading spaces leave the parser in its initial state, but for the
      noted token boundary. */
  lemma {:induction false} LeadingSpaces(line: string, canOpen: string -> bool, q: nat)
    requires q <= |line| && forall k :: 0 <= k < q ==> line[k] == ' '
    ensures ParseLine(line, canOpen)
            == Resume(line, canOpen, q, if q == 0 then START else START.(sawSpace := true))
  {
    if q > 0 {
      LeadingSpaces(line, canOpen, q - 1);
      ResumeStep(line, canOpen, q - 1, if q - 1 == 0 then START else START.(sawSpace := true));
    }
  }

  /** A "|" or ">" before any token is a missing command. */
  lemma LeadingOperatorRejected(line: string, canOpen: string -> bool, q: nat)
    requires q < |line| && (line[q] == '|' || line[q] == '>')
    requires forall k :: 0 <= k < q ==> line[k] == ' '
    ensures ParseLine(line, canOpen) == Failed(MissingToken, SearchCommand)
  {
    LeadingSpaces(line, canOpen, q);
    ResumeStep(line, canOpen, q, if q == 0 then START else START.(sawSpace := true));
  }
}

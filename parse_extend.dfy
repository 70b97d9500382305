/** How the outcome for an accepted line changes when more text follows
    it. An operator or a token after the line is stated for any text after
    it, so the lemmas fix the order in which the parser's checks fire: a
    redirected last stage before a fourth pipe, a refused output file or
    a seventeenth argument before anything that follows them, and a
    second operator right after "|" or ">" as a missing token. */
module ParseExtend {
  import opened ShellTypes
  import opened ParseSpec
  import opened ParseProps

  /** The two lines agree on the character at i and on whether an "&"
      follows it, so one scanning step at i is the same on both. */
  lemma StepSame(p: string, q: string, canOpen: string -> bool, i: nat, st: ScanState)
    requires i < |p| && i < |q| && p[i] == q[i] && AmpFollows(p, i) == AmpFollows(q, i)
    ensures Step(p, canOpen, i, st) == Step(q, canOpen, i, st)
  {
  }

  /** Scanning p + q up to the end of p is scanning p, as long as q does
      not begin with an "&" that a final "|" or ">" of p would consume. */
  lemma {:induction false} RunPrefix(p: string, q: string, canOpen: string -> bool, i: nat, st: ScanState)
    requires i <= |p| && (|q| > 0 ==> q[0] != '&')
    ensures Run(p + q, canOpen, i, st)
            == match Run(p, canOpen, i, st)
               case Err(e, m) => Err(e, m)
               case Ok(s) => Run(p + q, canOpen, |p|, s)
    decreases |p| - i
  {
    if i < |p| {
      assert (p + q)[i] == p[i];
      assert AmpFollows(p + q, i) == AmpFollows(p, i) by {
        if i + 1 < |p| {
          assert (p + q)[i + 1] == p[i + 1];
        } else if |q| > 0 {
          assert (p + q)[i + 1] == q[0];
        }
      }
      StepSame(p, p + q, canOpen, i, st);
      match Step(p, canOpen, i, st)
      case Stop(_, _) =>
      case Next(j, s) => RunPrefix(p, q, canOpen, j, s);
    }
  }

  /** The scanner state at the end of an accepted line. */
  ghost function EndState(p: string, canOpen: string -> bool): ScanState
    requires Run(p, canOpen, 0, START).Ok?
  {
    Run(p, canOpen, 0, START).value
  }

  /** An accepted line ends on a pending token in an invariant state, whose
      flush yields the accepted pipeline. */
  lemma ParsedEnd(p: string, canOpen: string -> bool)
    requires ParseLine(p, canOpen).Parsed?
    ensures Run(p, canOpen, 0, START).Ok?
    ensures var s := EndState(p, canOpen);
            && Inv(p, canOpen, |p|, s)
            && |s.token| > 0 && !s.initSkip
            && Flush(s, canOpen).Ok?
            && var f := Flush(s, canOpen).value;
               ParseLine(p, canOpen) == Parsed(f.done + [f.cur], f.numPipes)
  {
    StartInv(p, canOpen);
    RunKeeps(p, canOpen, 0, START);
  }

  /** An accepted line has at least one command. */
  lemma ParsedCommands(p: string, canOpen: string -> bool)
    requires ParseLine(p, canOpen).Parsed?
    ensures |ParseLine(p, canOpen).commands| > 0
  {
    ParsedEnd(p, canOpen);
  }

  /** The part of ParsedEnd the extension lemmas use: the end state of
      an accepted line holds a token whose flush yields the pipeline. */
  lemma ParsedFlush(p: string, canOpen: string -> bool)
    requires ParseLine(p, canOpen).Parsed?
    ensures Run(p, canOpen, 0, START).Ok?
    ensures var s := EndState(p, canOpen);
            && |s.token| > 0 && !s.initSkip
            && Flush(s, canOpen).Ok?
            && var f := Flush(s, canOpen).value;
               ParseLine(p, canOpen) == Parsed(f.done + [f.cur], f.numPipes)
  {
    ParsedEnd(p, canOpen);
  }

  /** An accepted line has fewer than PIPED_CMD_MAX pipes. */
  lemma ParsedPipes(p: string, canOpen: string -> bool)
    requires ParseLine(p, canOpen).Parsed?
    ensures ParseLine(p, canOpen).numPipes < PIPED_CMD_MAX
  {
    ParsedPipeline(p, canOpen);
  }

  /** Text that does not begin with "&" resumes the scan of an accepted
      line from its end state. */
  lemma ParsedExtend(p: string, q: string, canOpen: string -> bool)
    requires ParseLine(p, canOpen).Parsed? && |q| > 0 && q[0] != '&'
    ensures Run(p, canOpen, 0, START).Ok?
    ensures ParseLine(p + q, canOpen) == Resume(p + q, canOpen, |p|, EndState(p, canOpen))
  {
    ParsedEnd(p, canOpen);
    RunPrefix(p, q, canOpen, 0, START);
  }


  /** n spaces. */
  function Spaces(n: nat): (s: string)
    ensures |s| == n && forall k :: 0 <= k < n ==> s[k] == ' '
  {
    if n == 0 then [] else [' '] + Spaces(n - 1)
  }

  /** The characters of a "|" or ">" operator, with the "&" that extends it
      to "|&" or ">&" when amp holds. */
  function Operator(op: char, amp: bool): (o: string)
    ensures |o| > 0 && o[0] == op
  {
    if amp then [op, '&'] else [op]
  }

  /** A run of n spaces has the effect of one. */
  lemma {:induction false} SkipSpaces(a: string, n: nat, b: string, canOpen: string -> bool, st: ScanState)
    ensures Resume(a + Spaces(n) + b, canOpen, |a|, st)
            == Resume(a + Spaces(n) + b, canOpen, |a| + n, if n == 0 then st else Spaced(st))
    decreases n
  {
    if n > 0 {
      var line := a + Spaces(n) + b;
      assert line == (a + [' ']) + Spaces(n - 1) + b;
      assert line[|a|] == ' ';
      ResumeStep(line, canOpen, |a|, st);
      assert Step(line, canOpen, |a|, st) == Next(|a| + 1, Spaced(st));
      SkipSpaces(a + [' '], n - 1, b, canOpen, Spaced(st));
    }
  }

  /** The characters of a token t, read with no pending boundary, are
      appended to the token in progress. */
  lemma {:induction false} TokenRun(a: string, t: string, b: string, canOpen: string -> bool, st: ScanState)
    requires |t| > 0 && NoSeparator(t) && !(st.sawSpace && !st.initSkip)
    ensures Resume(a + t + b, canOpen, |a|, st)
            == Resume(a + t + b, canOpen, |a| + |t|,
                      st.(initSkip := false, sawSpace := false, token := st.token + t))
    decreases |t|
  {
    var line := a + t + b;
    assert line[|a|] == t[0];
    ResumeStep(line, canOpen, |a|, st);
    var s1 := st.(initSkip := false, sawSpace := false, token := st.token + [t[0]]);
    assert Step(line, canOpen, |a|, st) == Next(|a| + 1, s1);
    if |t| > 1 {
      var rest := t[1..];
      assert line == (a + [t[0]]) + rest + b;
      assert NoSeparator(rest);
      TokenRun(a + [t[0]], rest, b, canOpen, s1);
      assert s1.token + rest == st.token + t;
    } else {
      assert t == [t[0]];
    }
  }

  /** n spaces and then a token t, read in a state with no token in
      progress: t becomes the token in progress. */
  lemma SpacesThenToken(a: string, n: nat, t: string, q: string, canOpen: string -> bool, st: ScanState)
    requires ValidToken(t) && st.token == [] && !st.sawSpace
    requires n > 0 && st.mode == SearchCommand ==> st.initSkip
    ensures Resume(a + Spaces(n) + t + q, canOpen, |a|, st)
            == Resume(a + Spaces(n) + t + q, canOpen, |a| + n + |t|,
                      ScanState(st.done, st.cur, st.numPipes, t, st.mode, st.target, false, false))
  {
    var sp := Spaces(n);
    var line := a + sp + t + q;
    var st2 := if n == 0 then st else Spaced(st);
    calc {
      Resume(line, canOpen, |a|, st);
      { assert line == a + sp + (t + q);
        SkipSpaces(a, n, t + q, canOpen, st); }
      Resume(line, canOpen, |a + sp|, st2);
      { TokenRun(a + sp, t, q, canOpen, st2); }
      Resume(line, canOpen, |a + sp| + |t|, st2.(initSkip := false, sawSpace := false, token := st2.token + t));
      { assert st2.token + t == t; }
      Resume(line, canOpen, |a| + n + |t|, ScanState(st.done, st.cur, st.numPipes, t, st.mode, st.target, false, false));
    }
  }

  /** A pending token whose flush fails makes the line fail with that error
      whatever follows, as long as the next character ends the token. */
  lemma {:induction false} FlushFailsAhead(line: string, canOpen: string -> bool, k: nat, st: ScanState)
    requires k <= |line| && |st.token| > 0 && !st.initSkip && Flush(st, canOpen).Err?
    requires k < |line| && !IsSeparator(line[k]) ==> st.sawSpace
    ensures Resume(line, canOpen, k, st)
            == Failed(Flush(st, canOpen).error, Flush(st, canOpen).mode)
    decreases |line| - k
  {
    if k < |line| {
      ResumeStep(line, canOpen, k, st);
      if line[k] == ' ' {
        assert Flush(st.(sawSpace := true), canOpen) == Flush(st, canOpen);
        FlushFailsAhead(line, canOpen, k + 1, st.(sawSpace := true));
      }
    }
  }

  /** A "|" (or "|&") after an accepted line whose last stage is
      redirected, or which already has three pipes, is refused whatever
      follows: the redirection is checked first. */
  lemma PipeRefused(p: string, amp: bool, r: string, canOpen: string -> bool)
    requires ParseLine(p, canOpen).Parsed?
    ensures var o := ParseLine(p, canOpen);
            var m := |o.commands|;
            m > 0
            && var last := o.commands[m - 1];
               var line := p + Operator('|', amp) + r;
               && (last.outputToFile ==> ParseLine(line, canOpen) == Failed(MislocatedRedirect, SearchCommand))
               && (!last.outputToFile && o.numPipes == PIPED_CMD_MAX - 1
                   ==> ParseLine(line, canOpen) == Failed(PipeOverflow, SearchCommand))
  {
    var op := Operator('|', amp);
    var line := p + op + r;
    ParsedFlush(p, canOpen);
    var s := EndState(p, canOpen);
    calc {
      ParseLine(line, canOpen);
      { assert line == p + (op + r); ParsedExtend(p, op + r, canOpen); }
      Resume(line, canOpen, |p|, s);
      { assert line[|p|] == '|'; ResumeStep(line, canOpen, |p|, s); }
      match Step(line, canOpen, |p|, s)
      case Stop(e, m) => Failed(e, m)
      case Next(j, s') => Resume(line, canOpen, j, s');
    }
  }

  /** A "|" (or "|&") after an accepted line whose last stage is not
      redirected and which has fewer than three pipes: the scan goes on with
      the last stage closed (marked for "|&") and a fresh command awaiting
      its name. */
  lemma PipeOpened(p: string, amp: bool, r: string, canOpen: string -> bool)
    requires ParseLine(p, canOpen).Parsed? && (!amp && |r| > 0 ==> r[0] != '&')
    requires var o := ParseLine(p, canOpen);
             && |o.commands| > 0 && !o.commands[|o.commands| - 1].outputToFile
             && o.numPipes != PIPED_CMD_MAX - 1
    ensures var o := ParseLine(p, canOpen);
            var m := |o.commands|;
            var last := o.commands[m - 1];
            var line := p + Operator('|', amp) + r;
            ParseLine(line, canOpen)
            == Resume(line, canOpen, |p| + |Operator('|', amp)|,
                      ScanState(o.commands[..m - 1] + [if amp then last.(errToPipe := true) else last],
                                FRESH_COMMAND, o.numPipes + 1, [], SearchCommand, Arg(0), false, true))
  {
    var op := Operator('|', amp);
    var line := p + op + r;
    ParsedFlush(p, canOpen);
    ParsedPipes(p, canOpen);
    var s := EndState(p, canOpen);
    var f := Flush(s, canOpen).value;
    var o := ParseLine(p, canOpen);
    assert o.commands[..|o.commands| - 1] == f.done;
    assert AmpFollows(line, |p|) == amp by {
      if amp {
        assert line[|p| + 1] == '&';
      } else if |r| > 0 {
        assert line[|p| + 1] == r[0];
      }
    }
    calc {
      ParseLine(line, canOpen);
      { assert line == p + (op + r); ParsedExtend(p, op + r, canOpen); }
      Resume(line, canOpen, |p|, s);
      { assert line[|p|] == '|'; ResumeStep(line, canOpen, |p|, s); }
      match Step(line, canOpen, |p|, s)
      case Stop(e, m) => Failed(e, m)
      case Next(j, s') => Resume(line, canOpen, j, s');
    }
  }

  /** A "|" (or "|&") after an accepted line decides, whatever follows: a
      redirected last stage is a mislocated redirection, a fourth pipe is
      an overflow, and otherwise the scan goes on with the last stage
      closed (marked for "|&") and a fresh command awaiting its name. */
  lemma PipeOperator(p: string, amp: bool, r: string, canOpen: string -> bool)
    requires ParseLine(p, canOpen).Parsed? && (!amp && |r| > 0 ==> r[0] != '&')
    ensures var o := ParseLine(p, canOpen);
            var n := |o.commands|;
            n > 0
            && var last := o.commands[n - 1];
               var line := p + Operator('|', amp) + r;
               ParseLine(line, canOpen)
               == if last.outputToFile then Failed(MislocatedRedirect, SearchCommand)
                  else if o.numPipes == PIPED_CMD_MAX - 1 then Failed(PipeOverflow, SearchCommand)
                  else Resume(line, canOpen, |p| + |Operator('|', amp)|,
                              ScanState(o.commands[..n - 1] + [if amp then last.(errToPipe := true) else last],
                                        FRESH_COMMAND, o.numPipes + 1, [], SearchCommand, Arg(0), false, true))
  {
    PipeRefused(p, amp, r, canOpen);
    var o := ParseLine(p, canOpen);
    if !o.commands[|o.commands| - 1].outputToFile && o.numPipes != PIPED_CMD_MAX - 1 {
      PipeOpened(p, amp, r, canOpen);
    }
  }

  /** A ">" (or ">&") after an accepted line, whatever follows: the scan
      goes on looking for the filename of the last stage, which now writes
      its output (and for ">&" its error stream) to a file. */
  lemma RedirectOperator(p: string, amp: bool, r: string, canOpen: string -> bool)
    requires ParseLine(p, canOpen).Parsed? && (!amp && |r| > 0 ==> r[0] != '&')
    ensures var o := ParseLine(p, canOpen);
            var n := |o.commands|;
            n > 0
            && var last := o.commands[n - 1];
               var line := p + Operator('>', amp) + r;
               ParseLine(line, canOpen)
               == Resume(line, canOpen, |p| + |Operator('>', amp)|,
                         ScanState(o.commands[..n - 1],
                                   last.(outputToFile := true, errToFile := last.errToFile || amp),
                                   o.numPipes, [], SearchFilename, OutputName, false, false))
  {
    var op := Operator('>', amp);
    var line := p + op + r;
    ParsedFlush(p, canOpen);
    var s := EndState(p, canOpen);
    var f := Flush(s, canOpen).value;
    var o := ParseLine(p, canOpen);
    assert o.commands[..|o.commands| - 1] == f.done;
    assert AmpFollows(line, |p|) == amp by {
      if amp {
        assert line[|p| + 1] == '&';
      } else if |r| > 0 {
        assert line[|p| + 1] == r[0];
      }
    }
    calc {
      ParseLine(line, canOpen);
      { assert line == p + (op + r); ParsedExtend(p, op + r, canOpen); }
      Resume(line, canOpen, |p|, s);
      { assert line[|p|] == '>'; ResumeStep(line, canOpen, |p|, s); }
      match Step(line, canOpen, |p|, s)
      case Stop(e, m) => Failed(e, m)
      case Next(j, s') => Resume(line, canOpen, j, s');
    }
  }

  /** A "|" (or "|&") that opens a new stage, n spaces and a token t after
      an accepted line, then anything q: t is the pending name of the new
      last command. */
  lemma PipeOpenedToken(p: string, amp: bool, n: nat, t: string, q: string, canOpen: string -> bool)
    requires ParseLine(p, canOpen).Parsed? && ValidToken(t) && (!amp && n == 0 ==> t[0] != '&')
    requires var o := ParseLine(p, canOpen);
             && |o.commands| > 0 && !o.commands[|o.commands| - 1].outputToFile
             && o.numPipes != PIPED_CMD_MAX - 1
    ensures var o := ParseLine(p, canOpen);
            var m := |o.commands|;
            var last := o.commands[m - 1];
            var line := p + Operator('|', amp) + Spaces(n) + t + q;
            ParseLine(line, canOpen)
            == Resume(line, canOpen, |p| + |Operator('|', amp)| + n + |t|,
                      ScanState(o.commands[..m - 1] + [if amp then last.(errToPipe := true) else last],
                                FRESH_COMMAND, o.numPipes + 1, t, SearchCommand, Arg(0), false, false))
  {
    var op := Operator('|', amp);
    var sp := Spaces(n);
    var line := p + op + sp + t + q;
    var r := sp + t + q;
    var o := ParseLine(p, canOpen);
    var m := |o.commands|;
    var last := o.commands[m - 1];
    var st := ScanState(o.commands[..m - 1] + [if amp then last.(errToPipe := true) else last],
                        FRESH_COMMAND, o.numPipes + 1, [], SearchCommand, Arg(0), false, true);
    calc {
      ParseLine(line, canOpen);
      { assert line == p + op + r;
        assert |r| > 0 && r[0] == (if n > 0 then ' ' else t[0]);
        PipeOpened(p, amp, r, canOpen); }
      Resume(line, canOpen, |p + op|, st);
      { SpacesThenToken(p + op, n, t, q, canOpen, st); }
      Resume(line, canOpen, |p| + |Operator('|', amp)| + n + |t|,
             ScanState(o.commands[..m - 1] + [if amp then last.(errToPipe := true) else last],
                       FRESH_COMMAND, o.numPipes + 1, t, SearchCommand, Arg(0), false, false));
    }
  }

  /** A "|" (or "|&"), n spaces and a token t after an accepted line, then
      anything q: the checks at the pipe decide first; otherwise t is the
      pending name of the new last command. */
  lemma PipeToken(p: string, amp: bool, n: nat, t: string, q: string, canOpen: string -> bool)
    requires ParseLine(p, canOpen).Parsed? && ValidToken(t) && (!amp && n == 0 ==> t[0] != '&')
    ensures var o := ParseLine(p, canOpen);
            var m := |o.commands|;
            m > 0
            && var last := o.commands[m - 1];
               var line := p + Operator('|', amp) + Spaces(n) + t + q;
               ParseLine(line, canOpen)
               == if last.outputToFile then Failed(MislocatedRedirect, SearchCommand)
                  else if o.numPipes == PIPED_CMD_MAX - 1 then Failed(PipeOverflow, SearchCommand)
                  else Resume(line, canOpen, |p| + |Operator('|', amp)| + n + |t|,
                              ScanState(o.commands[..m - 1] + [if amp then last.(errToPipe := true) else last],
                                        FRESH_COMMAND, o.numPipes + 1, t, SearchCommand, Arg(0), false, false))
  {
    ParsedCommands(p, canOpen);
    var o := ParseLine(p, canOpen);
    if o.commands[|o.commands| - 1].outputToFile || o.numPipes == PIPED_CMD_MAX - 1 {
      var op := Operator('|', amp);
      var r := Spaces(n) + t + q;
      assert p + op + Spaces(n) + t + q == p + op + r;
      PipeRefused(p, amp, r, canOpen);
    } else {
      PipeOpenedToken(p, amp, n, t, q, canOpen);
    }
  }

  /** A "|" (or "|&"), n spaces and a final token t after an accepted line:
      the checks at the pipe in their order, a redirected last stage first,
      then a fourth pipe; otherwise t names a new last stage. */
  lemma PipeExtension(p: string, amp: bool, n: nat, t: string, canOpen: string -> bool)
    requires ParseLine(p, canOpen).Parsed? && ValidToken(t) && (!amp && n == 0 ==> t[0] != '&')
    ensures var o := ParseLine(p, canOpen);
            var m := |o.commands|;
            m > 0
            && var last := o.commands[m - 1];
               ParseLine(p + Operator('|', amp) + Spaces(n) + t, canOpen)
               == if last.outputToFile then Failed(MislocatedRedirect, SearchCommand)
                  else if o.numPipes == PIPED_CMD_MAX - 1 then Failed(PipeOverflow, SearchCommand)
                  else Parsed(o.commands[..m - 1]
                                + [if amp then last.(errToPipe := true) else last,
                                   FRESH_COMMAND.(arguments := [t])],
                              o.numPipes + 1)
  {
    var line := p + Operator('|', amp) + Spaces(n) + t;
    assert line + [] == line;
    PipeToken(p, amp, n, t, [], canOpen);
    var o := ParseLine(p, canOpen);
    var m := |o.commands|;
    var last := o.commands[m - 1];
    var closed := if amp then last.(errToPipe := true) else last;
    assert FRESH_COMMAND.arguments + [t] == [t];
    assert o.commands[..m - 1] + [closed] + [FRESH_COMMAND.(arguments := [t])]
           == o.commands[..m - 1] + [closed, FRESH_COMMAND.(arguments := [t])];
  }

  /** A ">" (or ">&"), n spaces and a token t after an accepted line, then
      anything q: t is the pending filename of the last stage. */
  lemma RedirectToken(p: string, amp: bool, n: nat, t: string, q: string, canOpen: string -> bool)
    requires ParseLine(p, canOpen).Parsed? && ValidToken(t) && (!amp && n == 0 ==> t[0] != '&')
    ensures var o := ParseLine(p, canOpen);
            var m := |o.commands|;
            m > 0
            && var last := o.commands[m - 1];
               var line := p + Operator('>', amp) + Spaces(n) + t + q;
               ParseLine(line, canOpen)
               == Resume(line, canOpen, |p| + |Operator('>', amp)| + n + |t|,
                         ScanState(o.commands[..m - 1],
                                   last.(outputToFile := true, errToFile := last.errToFile || amp),
                                   o.numPipes, t, SearchFilename, OutputName, false, false))
  {
    var op := Operator('>', amp);
    var sp := Spaces(n);
    var line := p + op + sp + t + q;
    var r := sp + t + q;
    ParsedCommands(p, canOpen);
    var o := ParseLine(p, canOpen);
    var m := |o.commands|;
    var last := o.commands[m - 1];
    var st := ScanState(o.commands[..m - 1],
                        last.(outputToFile := true, errToFile := last.errToFile || amp),
                        o.numPipes, [], SearchFilename, OutputName, false, false);
    calc {
      ParseLine(line, canOpen);
      { assert line == p + op + r;
        assert |r| > 0 && r[0] == (if n > 0 then ' ' else t[0]);
        RedirectOperator(p, amp, r, canOpen); }
      Resume(line, canOpen, |p + op|, st);
      { SpacesThenToken(p + op, n, t, q, canOpen, st); }
      Resume(line, canOpen, |p| + |Operator('>', amp)| + n + |t|,
             ScanState(o.commands[..m - 1],
                       last.(outputToFile := true, errToFile := last.errToFile || amp),
                       o.numPipes, t, SearchFilename, OutputName, false, false));
    }
  }

  /** A ">" (or ">&"), n spaces and a final filename t after an accepted
      line: the last stage writes its output (and for ">&" its error
      stream) to t when the name can be opened; otherwise a bad file. */
  lemma RedirectExtension(p: string, amp: bool, n: nat, t: string, canOpen: string -> bool)
    requires ParseLine(p, canOpen).Parsed? && ValidToken(t) && (!amp && n == 0 ==> t[0] != '&')
    ensures var o := ParseLine(p, canOpen);
            var m := |o.commands|;
            m > 0
            && var last := o.commands[m - 1];
               ParseLine(p + Operator('>', amp) + Spaces(n) + t, canOpen)
               == if canOpen(t)
                  then Parsed(o.commands[..m - 1]
                                + [last.(outputToFile := true, errToFile := last.errToFile || amp,
                                         outputName := t)],
                              o.numPipes)
                  else Failed(BadFile, SearchCommand)
  {
    var line := p + Operator('>', amp) + Spaces(n) + t;
    assert line + [] == line;
    RedirectToken(p, amp, n, t, [], canOpen);
    ParsedPipeline(p, canOpen);
  }

  /** An output file that cannot be opened is reported as soon as its name
      ends, before whatever follows is looked at: after ">" (or ">&") and
      the name t, any further text that starts with a separator, such as
      a pipe that would be a fourth one, still yields a bad file. */
  lemma RedirectBadFile(p: string, amp: bool, n: nat, t: string, q: string, canOpen: string -> bool)
    requires ParseLine(p, canOpen).Parsed? && ValidToken(t) && (!amp && n == 0 ==> t[0] != '&')
    requires !canOpen(t) && (|q| > 0 ==> IsSeparator(q[0]))
    ensures ParseLine(p + Operator('>', amp) + Spaces(n) + t + q, canOpen) == Failed(BadFile, SearchCommand)
  {
    var op := Operator('>', amp);
    var line := p + op + Spaces(n) + t + q;
    RedirectToken(p, amp, n, t, q, canOpen);
    assert |q| > 0 ==> line[|p| + |op| + n + |t|] == q[0];
    var o := ParseLine(p, canOpen);
    var m := |o.commands|;
    var last := o.commands[m - 1];
    var st := ScanState(o.commands[..m - 1],
                        last.(outputToFile := true, errToFile := last.errToFile || amp),
                        o.numPipes, t, SearchFilename, OutputName, false, false);
    FlushFailsAhead(line, canOpen, |p| + |op| + n + |t|, st);
  }

  /** Spaces after an accepted line only mark a token boundary: the scan
      resumes after them from the end state of the line. */
  lemma SpacesAfter(p: string, n: nat, r: string, canOpen: string -> bool)
    requires ParseLine(p, canOpen).Parsed? && n > 0
    ensures Run(p, canOpen, 0, START).Ok?
    ensures ParseLine(p + Spaces(n) + r, canOpen)
            == Resume(p + Spaces(n) + r, canOpen, |p| + n, EndState(p, canOpen).(sawSpace := true))
  {
    ParsedFlush(p, canOpen);
    var sp := Spaces(n);
    var line := p + sp + r;
    var s := EndState(p, canOpen);
    calc {
      ParseLine(line, canOpen);
      { assert line == p + (sp + r); ParsedExtend(p, sp + r, canOpen); }
      Resume(line, canOpen, |p|, s);
      { SkipSpaces(p, n, r, canOpen, s); assert Spaced(s) == s.(sawSpace := true); }
      Resume(line, canOpen, |p| + n, s.(sawSpace := true));
    }
  }

  /** A token t that starts after a token boundary: the pending token is
      flushed, and t becomes the pending argument of the current command. */
  lemma NewToken(a: string, t: string, b: string, canOpen: string -> bool, st: ScanState)
    requires ValidToken(t) && st.sawSpace && !st.initSkip && |st.token| > 0 && Flush(st, canOpen).Ok?
    ensures var f := Flush(st, canOpen).value;
            Resume(a + t + b, canOpen, |a|, st)
            == Resume(a + t + b, canOpen, |a| + |t|,
                      f.(target := Arg(|f.cur.arguments|), mode := SearchCommand,
                         initSkip := false, sawSpace := false, token := t))
  {
    var line := a + t + b;
    var f := Flush(st, canOpen).value;
    var s1 := f.(target := Arg(|f.cur.arguments|), mode := SearchCommand,
                 initSkip := false, sawSpace := false, token := [t[0]]);
    calc {
      Resume(line, canOpen, |a|, st);
      { assert line[|a|] == t[0];
        ResumeStep(line, canOpen, |a|, st);
        assert Step(line, canOpen, |a|, st) == Next(|a| + 1, s1); }
      Resume(line, canOpen, |a| + 1, s1);
      { if |t| > 1 {
          var rest := t[1..];
          assert line == (a + [t[0]]) + rest + b;
          assert NoSeparator(rest);
          TokenRun(a + [t[0]], rest, b, canOpen, s1);
          assert [t[0]] + rest == t;
        } else {
          assert [t[0]] == t;
        } }
      Resume(line, canOpen, |a| + |t|, s1.(token := t));
    }
  }

  /** n >= 1 spaces and a token t after an accepted line, then anything q:
      the last token of the line is stored and t is the pending next
      argument of the last stage. */
  lemma ArgumentToken(p: string, n: nat, t: string, q: string, canOpen: string -> bool)
    requires ParseLine(p, canOpen).Parsed? && n > 0 && ValidToken(t)
    ensures var o := ParseLine(p, canOpen);
            var m := |o.commands|;
            m > 0
            && var last := o.commands[m - 1];
               var line := p + Spaces(n) + t + q;
               ParseLine(line, canOpen)
               == Resume(line, canOpen, |p| + n + |t|,
                         ScanState(o.commands[..m - 1], last, o.numPipes, t, SearchCommand,
                                   Arg(|last.arguments|), false, false))
  {
    var sp := Spaces(n);
    var line := p + sp + t + q;
    ParsedFlush(p, canOpen);
    var s := EndState(p, canOpen);
    var f := Flush(s, canOpen).value;
    var o := ParseLine(p, canOpen);
    var m := |o.commands|;
    var last := o.commands[m - 1];
    assert o.commands[..m - 1] == f.done && last == f.cur && o.numPipes == f.numPipes;
    var s1 := s.(sawSpace := true);
    assert Flush(s1, canOpen) == Ok(f.(sawSpace := true));
    calc {
      ParseLine(line, canOpen);
      { assert line == p + sp + (t + q); SpacesAfter(p, n, t + q, canOpen); }
      Resume(line, canOpen, |p| + n, s1);
      { assert line == (p + sp) + t + q; NewToken(p + sp, t, q, canOpen, s1); }
      Resume(line, canOpen, |p| + n + |t|,
             ScanState(o.commands[..m - 1], last, o.numPipes, t, SearchCommand,
                       Arg(|last.arguments|), false, false));
    }
  }

  /** Spaces and a final token t after an accepted line add t as a new last
      argument of the last stage, even when the line ended on an output
      filename; a seventeenth argument is refused. */
  lemma ExtraArgument(p: string, n: nat, t: string, canOpen: string -> bool)
    requires ParseLine(p, canOpen).Parsed? && n > 0 && ValidToken(t)
    ensures var o := ParseLine(p, canOpen);
            var m := |o.commands|;
            m > 0
            && var last := o.commands[m - 1];
               ParseLine(p + Spaces(n) + t, canOpen)
               == if |last.arguments| < ARGS_MAX
                  then Parsed(o.commands[..m - 1] + [last.(arguments := last.arguments + [t])], o.numPipes)
                  else Failed(ArgOverflow, SearchCommand)
  {
    var line := p + Spaces(n) + t;
    assert line + [] == line;
    ArgumentToken(p, n, t, [], canOpen);
    ParsedPipeline(p, canOpen);
  }

  /** A seventeenth argument is reported as soon as it ends, before
      whatever follows is looked at: even when it follows an output
      filename and a "|" comes next, the error is the argument overflow,
      not the mislocated redirection. */
  lemma ArgOverflowFirst(p: string, n: nat, t: string, q: string, canOpen: string -> bool)
    requires ParseLine(p, canOpen).Parsed? && n > 0 && ValidToken(t)
    requires var o := ParseLine(p, canOpen);
             |o.commands| > 0 && |o.commands[|o.commands| - 1].arguments| == ARGS_MAX
    requires |q| > 0 ==> IsSeparator(q[0])
    ensures ParseLine(p + Spaces(n) + t + q, canOpen) == Failed(ArgOverflow, SearchCommand)
  {
    var line := p + Spaces(n) + t + q;
    ArgumentToken(p, n, t, q, canOpen);
    assert |q| > 0 ==> line[|p| + n + |t|] == q[0];
    var o := ParseLine(p, canOpen);
    var m := |o.commands|;
    var last := o.commands[m - 1];
    var st := ScanState(o.commands[..m - 1], last, o.numPipes, t, SearchCommand,
                        Arg(|last.arguments|), false, false);
    FlushFailsAhead(line, canOpen, |p| + n + |t|, st);
  }

  /** A second "|" or ">" after a "|" (or "|&") and spaces: the checks at
      the first pipe, then a missing command. */
  lemma PipeThenOperator(p: string, amp: bool, n: nat, op: char, q: string, canOpen: string -> bool)
    requires ParseLine(p, canOpen).Parsed? && (op == '|' || op == '>')
    ensures var o := ParseLine(p, canOpen);
            var m := |o.commands|;
            m > 0
            && var last := o.commands[m - 1];
               ParseLine(p + Operator('|', amp) + Spaces(n) + [op] + q, canOpen)
               == if last.outputToFile then Failed(MislocatedRedirect, SearchCommand)
                  else if o.numPipes == PIPED_CMD_MAX - 1 then Failed(PipeOverflow, SearchCommand)
                  else Failed(MissingToken, SearchCommand)
  {
    var pipe := Operator('|', amp);
    var r := Spaces(n) + [op] + q;
    var line := p + pipe + Spaces(n) + [op] + q;
    ParsedCommands(p, canOpen);
    var o := ParseLine(p, canOpen);
    var m := |o.commands|;
    var last := o.commands[m - 1];
    if last.outputToFile || o.numPipes == PIPED_CMD_MAX - 1 {
      assert line == p + pipe + r;
      PipeRefused(p, amp, r, canOpen);
    } else {
      var st := ScanState(o.commands[..m - 1] + [if amp then last.(errToPipe := true) else last],
                          FRESH_COMMAND, o.numPipes + 1, [], SearchCommand, Arg(0), false, true);
      var k := |p + pipe| + n;
      var st1 := if n == 0 then st else Spaced(st);
      calc {
        ParseLine(line, canOpen);
        { assert line == p + pipe + r; assert r[0] != '&'; PipeOpened(p, amp, r, canOpen); }
        Resume(line, canOpen, |p + pipe|, st);
        { assert line == (p + pipe) + Spaces(n) + ([op] + q); SkipSpaces(p + pipe, n, [op] + q, canOpen, st); }
        Resume(line, canOpen, k, st1);
        { assert line[k] == op; ResumeStep(line, canOpen, k, st1); }
        Failed(MissingToken, SearchCommand);
      }
    }
  }

  /** A "|" or ">" after a ">" (or ">&") and spaces is a missing output
      file. */
  lemma RedirectThenOperator(p: string, amp: bool, n: nat, op: char, q: string, canOpen: string -> bool)
    requires ParseLine(p, canOpen).Parsed? && (op == '|' || op == '>')
    ensures ParseLine(p + Operator('>', amp) + Spaces(n) + [op] + q, canOpen)
            == Failed(MissingToken, SearchFilename)
  {
    var redirect := Operator('>', amp);
    var line := p + redirect + Spaces(n) + [op] + q;
    assert line == p + redirect + (Spaces(n) + [op] + q);
    RedirectOperator(p, amp, Spaces(n) + [op] + q, canOpen);
    var o := ParseLine(p, canOpen);
    var m := |o.commands|;
    var last := o.commands[m - 1];
    var st := ScanState(o.commands[..m - 1],
                        last.(outputToFile := true, errToFile := last.errToFile || amp),
                        o.numPipes, [], SearchFilename, OutputName, false, false);
    assert line == (p + redirect) + Spaces(n) + ([op] + q);
    SkipSpaces(p + redirect, n, [op] + q, canOpen, st);
    assert Spaced(st) == st;
    assert line[|p| + |redirect| + n] == op;
    ResumeStep(line, canOpen, |p| + |redirect| + n, st);
  }

  /** A "|" (or "|&") at the end of an accepted line: the same checks, and
      then a missing command. */
  lemma DanglingPipe(p: string, amp: bool, canOpen: string -> bool)
    requires ParseLine(p, canOpen).Parsed?
    ensures var o := ParseLine(p, canOpen);
            var last := o.commands[|o.commands| - 1];
            ParseLine(p + Operator('|', amp), canOpen)
            == if last.outputToFile then Failed(MislocatedRedirect, SearchCommand)
               else if o.numPipes == PIPED_CMD_MAX - 1 then Failed(PipeOverflow, SearchCommand)
               else Failed(MissingToken, SearchCommand)
  {
    var line := p + Operator('|', amp);
    ParsedExtend(p, Operator('|', amp), canOpen);
    ParsedEnd(p, canOpen);
    ParsedPipeline(p, canOpen);
    ResumeStep(line, canOpen, |p|, EndState(p, canOpen));
  }

  /** A ">" (or ">&") at the end of an accepted line is a missing output
      file. */
  lemma DanglingRedirect(p: string, amp: bool, canOpen: string -> bool)
    requires ParseLine(p, canOpen).Parsed?
    ensures ParseLine(p + Operator('>', amp), canOpen) == Failed(MissingToken, SearchFilename)
  {
    var line := p + Operator('>', amp);
    ParsedExtend(p, Operator('>', amp), canOpen);
    ParsedEnd(p, canOpen);
    ParsedPipeline(p, canOpen);
    ResumeStep(line, canOpen, |p|, EndState(p, canOpen));
  }
}

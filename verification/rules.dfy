/**
  Properties of `eval` on whole lines: what is started, in which order, with
  which file actions, and when the shell stops early.
 */
module Rules {
  import opened Defs
  import opened Argv
  import opened Tokenizer
  import opened Parser
  import opened Semantics

  /** A line of spaces (whatever its last character) changes nothing. */
  lemma BlankLineChangesNothing(os: Os, sh: Sh, line: string)
    requires |line| >= 1
    requires forall i :: 0 <= i < |line| - 1 ==> line[i] == ' '
    ensures EvalSpec(os, sh, line) == Step(sh, None)
  {
    BlankLine(line);
  }

  /** The builtins are recognised before the mode is looked at: whatever
      the rest of the line, `exit` ends the shell with `EXIT_SUCCESS`, `&`
      does nothing and `?` reports `pid` and `status >> 8`; none of them
      starts a program or changes `pid` or `status`. */
  lemma BuiltinsComeFirst(os: Os, sh: Sh, line: string)
    requires |line| >= 1
    requires var p := ParseSpec(line); p.argv != [] && BuiltinOf(p.argv[0]) != NotBuiltin
    ensures var st := EvalSpec(os, sh, line);
      && Spawns(st.sh.trace) == Spawns(sh.trace)
      && st.sh.pid == sh.pid && st.sh.status == sh.status
      && var w := ParseSpec(line).argv[0];
      && (w == "exit" ==> st == Step(sh, Some(EXIT_SUCCESS)))
      && (w == "&" ==> st == Step(sh, None))
      && (w == "?" ==> st == Step(sh.(trace := sh.trace + [StatusReport(sh.pid, StatusCode(sh.status))]), None))
  {
    SpawnsSnoc(sh.trace, StatusReport(sh.pid, StatusCode(sh.status)));
  }

  /** `exit | wc` exits: the builtin test comes before the pipe. */
  lemma ExitBeforePipe(os: Os, sh: Sh)
    ensures |Spaced(["exit", "|", "wc"])| >= 1
    ensures EvalSpec(os, sh, Spaced(["exit", "|", "wc"])) == Step(sh, Some(EXIT_SUCCESS))
    ensures Classify(["exit", "|", "wc"]) == Pipe
  {
    var ts := ["exit", "|", "wc"];
    assert forall i :: 0 <= i < |ts| ==> |ts[i]| > 0 && ' ' !in ts[i];
    ParseSpacedWords(ts);
    assert FindIndexOf(ts, "|") == 1;
  }

  /** An operator as the first word hides every later copy of itself, since
      `find_index` stops at its first match: `| a | b` is a simple
      foreground command of all four words. */
  lemma FirstWordHidesOperator()
    ensures |Spaced(["|", "a", "|", "b"])| >= 1
    ensures ParseSpec(Spaced(["|", "a", "|", "b"])) == Parsed(["|", "a", "|", "b"], Cmd(false, Simple))
  {
    var ts := ["|", "a", "|", "b"];
    assert forall i :: 0 <= i < |ts| ==> |ts[i]| > 0 && ' ' !in ts[i];
    HiddenPipeIsSimple();
    ParseSpacedWords(ts);
  }

  /** `|` occurs again after the first word, yet the line is Simple. */
  lemma HiddenPipeIsSimple()
    ensures "|" in ["|", "a", "|", "b"][1..] && Classify(["|", "a", "|", "b"]) == Simple
  {
    var ts := ["|", "a", "|", "b"];
    assert ts[1..][1] == "|";
    assert ";" !in ts && "&&" !in ts && "||" !in ts && "<" !in ts && ">" !in ts;
  }

  /** A simple line whose first word is no builtin starts exactly one
      program: its words, with no file actions. So `| a | b` runs the
      program `|`. */
  lemma SimpleStartsOne(os: Os, sh: Sh, line: string)
    requires |line| >= 1
    requires ParseSpec(line).argv != [] && ParseSpec(line).shape == Cmd(false, Simple)
    requires BuiltinOf(ParseSpec(line).argv[0]) == NotBuiltin
    ensures Spawns(EvalSpec(os, sh, line).sh.trace) == Spawns(sh.trace) + [Request(ParseSpec(line).argv, [])]
  {
    RunSpawnsOnce(os, sh, ParseSpec(line).argv, [], false);
  }

  /** Whether the right command of a list is started, given how the left
      one ended. */
  predicate RunsRight(mode: Mode, left: Outcome) {
    && left.flow == Continue
    && (mode == AndIf ==> left.sh.status == 0)
    && (mode == OrIf ==> left.sh.status != 0)
  }

  /** `;`, `&&`, `||`: the left command (the words before the first
      operator) is always started; the right one (the words after it) is
      started after it exactly when the left one did not end the shell and,
      for `&&`, the status is then zero, for `||` non-zero. When it is not
      started, `eval` returns without the background report. */
  lemma ListRule(os: Os, sh: Sh, args: seq<string>, mode: Mode, bg: bool)
    requires args != [] && IsList(mode)
    ensures var k := FindIndexOf(args, OperatorOf(mode));
      var left := Run(os, sh, args[..k], [], bg);
      var o := Dispatch(os, sh, args, mode, bg);
      && Spawns(o.sh.trace) == Spawns(sh.trace) + [Request(args[..k], [])]
           + (if RunsRight(mode, left) then [Request(args[k + 1..], [])] else [])
      && (o.flow == Return <==> left.flow == Continue && !RunsRight(mode, left))
  {
    var k := FindIndexOf(args, OperatorOf(mode));
    var left := Run(os, sh, args[..k], [], bg);
    var o := ListOutcome(os, sh, args, mode, bg);
    RunSpawnsOnce(os, sh, args[..k], [], bg);
    if RunsRight(mode, left) {
      RunSpawnsOnce(os, left.sh, args[k + 1..], [], bg);
    } else if left.flow.Halt? {
      assert o == left;
    } else {
      assert o == Outcome(left.sh, Return);
    }
  }

  /** The three ways a list ends. */
  lemma ListOutcome(os: Os, sh: Sh, args: seq<string>, mode: Mode, bg: bool) returns (o: Outcome)
    requires args != [] && IsList(mode)
    ensures o == Dispatch(os, sh, args, mode, bg)
    ensures var k := FindIndexOf(args, OperatorOf(mode));
      var left := Run(os, sh, args[..k], [], bg);
      && (left.flow.Halt? ==> o == left)
      && (left.flow == Continue && !RunsRight(mode, left) ==> o == Outcome(left.sh, Return))
      && (RunsRight(mode, left) ==> o == Run(os, left.sh, args[k + 1..], [], bg))
  {
    o := ListSpec(os, sh, args, mode, bg);
  }

  /** For `;` both commands are started, left first, unless the left one
      ends the shell. */
  lemma SeqRunsBoth(os: Os, sh: Sh, args: seq<string>, bg: bool)
    requires Classify(args) == Seq
    ensures var k := FindIndexOf(args, ";");
      var o := Dispatch(os, sh, args, Seq, bg);
      && 1 <= k < |args| && args[k] == ";" && ";" !in args[..k]
      && (o.flow != Halt(EXIT_FAILURE) ==>
            Spawns(o.sh.trace) == Spawns(sh.trace) + [Request(args[..k], []), Request(args[k + 1..], [])])
  {
    OperatorIndexPositive(args);
    FindIndexMeaning(args, ";");
    ListRule(os, sh, args, Seq, bg);
    var k := FindIndexOf(args, ";");
    var left := Run(os, sh, args[..k], [], bg);
    if left.flow.Halt? {
      var o := ListOutcome(os, sh, args, Seq, bg);
    }
  }

  /** In a background line `exec_cmd` never waits, so `&&` and `||` decide
      on the status left over from before the line: the right command is
      started exactly when that stale status is zero (`&&`) or non-zero
      (`||`), and the status stays as it was. */
  lemma BackgroundListUsesStaleStatus(os: Os, sh: Sh, args: seq<string>, mode: Mode)
    requires args != [] && (mode == AndIf || mode == OrIf)
    ensures var k := FindIndexOf(args, OperatorOf(mode));
      var o := Dispatch(os, sh, args, mode, true);
      var runsRight := (mode == AndIf) == (sh.status == 0);
      && o.sh.status == sh.status
      && Spawns(o.sh.trace) == Spawns(sh.trace) + [Request(args[..k], [])]
           + (if runsRight then [Request(args[k + 1..], [])] else [])
  {
    ListRule(os, sh, args, mode, true);
  }

  /** Redirections: the command started is the words before the operator
      (before the earlier one when both are present), which excludes every
      operator it is cut at; its actions are the opens of the words after
      the operators, input before output. When `addopen` refuses to record an
      action the shell ends with `EXIT_FAILURE` before anything is started
      (a missing file is only noticed later, as a failed spawn). */
  lemma RedirectRule(os: Os, sh: Sh, args: seq<string>, bg: bool)
    requires IsRedirect(Classify(args))
    ensures var mode := Classify(args);
      var o := Dispatch(os, sh, args, mode, bg);
      var ki := FindIndexOf(args, "<");
      var ko := FindIndexOf(args, ">");
      var inOk := os.addOpen(sh.trace, [], InputAction(args));
      && (mode == InputRedir ==>
            && 1 <= ki < |args| && "<" !in args[..ki]
            && (inOk ==> Spawns(o.sh.trace) == Spawns(sh.trace) + [Request(args[..ki], [InputAction(args)])])
            && (!inOk ==> o == Outcome(sh, Halt(EXIT_FAILURE))))
      && (mode == OutputRedir ==>
            var outOk := os.addOpen(sh.trace, [], OutputAction(args));
            && 1 <= ko < |args| && ">" !in args[..ko]
            && (outOk ==> Spawns(o.sh.trace) == Spawns(sh.trace) + [Request(args[..ko], [OutputAction(args)])])
            && (!outOk ==> o == Outcome(sh, Halt(EXIT_FAILURE))))
      && (mode == InputOutputRedir ==>
            var outOk := os.addOpen(sh.trace, [InputAction(args)], OutputAction(args));
            var k := if ki < ko then ki else ko;
            && 1 <= k < |args| && "<" !in args[..k] && ">" !in args[..k]
            && (inOk && outOk ==>
                  Spawns(o.sh.trace) == Spawns(sh.trace) + [Request(args[..k], [InputAction(args), OutputAction(args)])])
            && (!(inOk && outOk) ==> o == Outcome(sh, Halt(EXIT_FAILURE))))
  {
    var mode := Classify(args);
    var ki := FindIndexOf(args, "<");
    var ko := FindIndexOf(args, ">");
    OperatorIndexPositive(args);
    FindIndexMeaning(args, "<");
    FindIndexMeaning(args, ">");
    var k := if mode == InputRedir then ki else if mode == OutputRedir then ko else if ki < ko then ki else ko;
    var acts := if mode == InputRedir then [InputAction(args)]
      else if mode == OutputRedir then [OutputAction(args)]
      else [InputAction(args), OutputAction(args)];
    RunSpawnsOnce(os, sh, args[..k], acts, bg);
  }

  /** The actions opened for a redirection: standard input read-only from
      the word after `<`, standard output write-only, created and truncated,
      to the word after `>`; both with owner read/write permissions. */
  lemma RedirectActions(args: seq<string>)
    ensures var ki := FindIndexOf(args, "<");
      && InputAction(args).fd == 0 && InputAction(args).flags == 0
      && InputAction(args).perms == 0x180
      && (ki + 1 < |args| ==> InputAction(args).path == Str(args[ki + 1]))
    ensures var ko := FindIndexOf(args, ">");
      && OutputAction(args).fd == 1 && OutputAction(args).flags == 0x241
      && OutputAction(args).perms == 0x180
      && (ko + 1 < |args| ==> OutputAction(args).path == Str(args[ko + 1]))
  {
  }

  /** `handle_pipe` never returns 0, so `eval` never takes its early
      `return` after a pipe: -1 when `pipe` fails, 1 otherwise. */
  lemma PipeResultNeverZero(os: Os, sh: Sh, args: seq<string>, bg: bool)
    requires args != []
    ensures var r := PipeSpec(os, sh, args, bg);
      && r.ret != 0
      && (r.ret == -1 <==> os.pipe(sh.trace).PipeFailed?)
  {
  }

  /** When `pipe` fails, `handle_pipe` starts nothing and changes nothing
      else. */
  lemma PipeFailureStartsNothing(os: Os, sh: Sh, args: seq<string>, bg: bool)
    requires args != [] && os.pipe(sh.trace).PipeFailed?
    ensures var r := PipeSpec(os, sh, args, bg);
      && Spawns(r.sh.trace) == Spawns(sh.trace)
      && r.sh == sh.(trace := sh.trace + [PipeCall(os.pipe(sh.trace))])
  {
    SpawnsSnoc(sh.trace, PipeCall(os.pipe(sh.trace)));
  }

  /** `handle_pipe` once `pipe` has given a read end and a write end: the
      left command (the words before the first `|`) is started with the
      write end as standard output and the read end closed, then the right
      command (the words after it) with the read end as standard input and
      the write end closed; only then does the shell close both ends; it
      waits for the left and then the right child only when the line is not
      a background one; `pid` ends as the right child's pid when that start
      succeeded. A failed start leaves its `pid1`/`pid2` variable as it was,
      an unspecified value. */
  lemma PipeWiring(os: Os, sh: Sh, args: seq<string>, bg: bool)
    requires args != [] && os.pipe(sh.trace).PipeFds?
    ensures var r := PipeSpec(os, sh, args, bg);
      var rd := os.pipe(sh.trace).readEnd;
      var wr := os.pipe(sh.trace).writeEnd;
      var k := FindIndexOf(args, "|");
      var n := |sh.trace|;
      && Spawns(r.sh.trace) == Spawns(sh.trace)
           + [Request(args[..k], [Dup2(wr, STDOUT_FILENO), Close(rd)]),
              Request(args[k + 1..], [Dup2(rd, STDIN_FILENO), Close(wr)])]
      && |r.sh.trace| >= n + 5 && r.sh.trace[..n] == sh.trace
      && r.sh.trace[n + 1].Spawn? && r.sh.trace[n + 2].Spawn?
      && r.sh.trace[n + 3] == CloseFd(rd) && r.sh.trace[n + 4] == CloseFd(wr)
      && (bg ==> |r.sh.trace| == n + 5 && r.sh.status == sh.status)
      && (!bg ==> |r.sh.trace| == n + 7 && r.sh.trace[n + 5].Wait?
                  && r.sh.trace[n + 6].Wait? && r.sh.trace[n + 6].pid == r.sh.pid)
      && (!bg ==> r.sh.trace[n + 5].pid ==
                  (if r.sh.trace[n + 1].spawned.Spawned? then r.sh.trace[n + 1].spawned.pid
                   else os.indeterminate(sh.trace + [PipeCall(os.pipe(sh.trace))], 1)))
      && r.sh.pid == (if r.sh.trace[n + 2].spawned.Spawned? then r.sh.trace[n + 2].spawned.pid
                      else os.indeterminate(sh.trace + [PipeCall(os.pipe(sh.trace))], 2))
  {
    var fds := os.pipe(sh.trace);
    var rd, wr := fds.readEnd, fds.writeEnd;
    var t0 := sh.trace + [PipeCall(fds)];
    var k := FindIndexOf(args, "|");
    var a1 := [Dup2(wr, STDOUT_FILENO), Close(rd)];
    var a2 := [Dup2(rd, STDIN_FILENO), Close(wr)];
    var e1 := Exec(os, os.indeterminate(t0, 1), sh.status, t0, args[..k], a1, true);
    var e2 := Exec(os, os.indeterminate(t0, 2), e1.status, e1.trace, args[k + 1..], a2, true);
    var t1 := e2.trace + [CloseFd(rd), CloseFd(wr)];
    var r := PipeUnfold(os, sh, args, bg);
    ExecBackground(os, os.indeterminate(t0, 1), sh.status, t0, args[..k], a1);
    ExecBackground(os, os.indeterminate(t0, 2), e1.status, e1.trace, args[k + 1..], a2);
    var x := e1.trace[|t0|];
    var y := e2.trace[|e1.trace|];
    assert t1 == sh.trace + [PipeCall(fds)] + [x] + [y] + [CloseFd(rd)] + [CloseFd(wr)];
    SpawnsOfPipe(sh.trace, PipeCall(fds), x, y, CloseFd(rd), CloseFd(wr));
    if !bg {
      var w1 := Reap(os, e2.status, t1, e1.cell);
      SpawnsSnoc(t1, Wait(e1.cell, os.wait(t1, e1.cell)));
      SpawnsSnoc(w1.1, Wait(e2.cell, os.wait(w1.1, e2.cell)));
    }
  }

  /** The requests in the events of one successful `handle_pipe`. */
  lemma SpawnsOfPipe(t: seq<Event>, p: Event, x: Event, y: Event, c1: Event, c2: Event)
    requires p.PipeCall? && x.Spawn? && y.Spawn? && c1.CloseFd? && c2.CloseFd?
    ensures Spawns(t + [p] + [x] + [y] + [c1] + [c2])
      == Spawns(t) + [Request(x.argv, x.actions), Request(y.argv, y.actions)]
  {
    SpawnsSnoc(t, p);
    SpawnsSnoc(t + [p], x);
    SpawnsSnoc(t + [p] + [x], y);
    SpawnsSnoc(t + [p] + [x] + [y], c1);
    SpawnsSnoc(t + [p] + [x] + [y] + [c1], c2);
  }

  /** In the background `exec_cmd` only starts the program: one event, the
      status untouched. */
  lemma ExecBackground(os: Os, cell: int, status: int, trace: seq<Event>, argv: seq<string>, actions: seq<FileAction>)
    ensures var e := Exec(os, cell, status, trace, argv, actions, true);
      var r := os.spawn(trace, argv, actions);
      && e.trace == trace + [Spawn(argv, actions, r)]
      && e.status == status && e.halt == None
      && e.cell == (if r.Spawned? then r.pid else cell)
  {
  }

  /** A background line never waits, so it never refreshes `status`:
      whatever its mode, the status after it is the status before it. */
  lemma BackgroundKeepsStatus(os: Os, sh: Sh, line: string)
    requires |line| >= 1 && ParseSpec(line).shape.Cmd? && ParseSpec(line).shape.bg
    ensures EvalSpec(os, sh, line).sh.status == sh.status
  {
  }
}

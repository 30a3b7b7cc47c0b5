/**
  The shell itself: `eval` and its helpers, working on the line buffer and
  the argument array in place, with `eval`'s `static` `pid` and `status` as
  fields. Each method is proved to do what the value-level functions of
  `Semantics` say.
 */
module SpawnShell {
  import opened Defs
  import opened Argv
  import opened Tokenizer
  import opened Parser
  import opened Semantics

  /** A fresh array with the same slots: the copy of `parsed_args` that a
      by-value parameter gets. */
  method CopyOf(a: array<CStr>) returns (b: array<CStr>)
    ensures fresh(b) && b[..] == a[..]
  {
    b := new CStr[a.Length];
    forall i | 0 <= i < a.Length {
      b[i] := a[i];
    }
  }

  /** The slot after index `k` of a laid-out vector: the next word, or the
      NULL terminator when `k` is the last word. */
  lemma SlotAfter(a: seq<CStr>, args: seq<string>, k: nat)
    requires Layout(a, args) && k < |args|
    ensures a[k + 1] == PathAfter(args, k)
  {
    if k + 1 < |args| {
      assert a[k + 1] == Str(args[k + 1]);
    } else {
      assert k + 1 == |args|;
    }
  }

  /** `find_index` on an operator followed by `split_argument_list` there:
      the first command is the words before the operator, the second the
      words after it. */
  method SplitAtOperator(argv: array<CStr>, ghost args: seq<string>, op: string) returns (k: nat, second: nat)
    requires Layout(argv[..], args) && args != []
    modifies argv
    ensures k == FindIndexOf(args, op) && k < |args| && second == k + 1 < argv.Length
    ensures ArgsAt(argv[..], 0) == args[..k] && ArgsAt(argv[..], second) == args[k + 1..]
  {
    k := FindIndex(argv, args, op);
    ghost var whole := argv[..];
    second := SplitArgumentList(argv, k);
    CutViews(whole, args, k);
  }

  class Shell {
    /** The operating system the shell runs on. */
    const os: Os
    /** `eval`'s `static pid_t pid`. */
    var pid: int
    /** `eval`'s `static int status`. */
    var status: int
    /** Everything the shell has done so far. */
    var trace: seq<Event>

    function State(): Sh
      reads this
    {
      Sh(pid, status, trace)
    }

    /** A fresh shell: the `static` variables start at zero. */
    constructor(os: Os)
      ensures this.os == os && State() == Sh(0, 0, [])
    {
      this.os := os;
      pid := 0;
      status := 0;
      trace := [];
    }

    /** `exec_cmd` on the vector starting at slot `off` of `argv`; `cell` is
        the `pid_t` it is given to fill and `cell'` its new value. */
    method ExecCmd(argv: array<CStr>, off: nat, ghost args: seq<string>, actions: seq<FileAction>, cell: int, bg: bool)
      returns (cell': int, halt: Option<int>)
      requires off <= argv.Length && ArgsAt(argv[..], off) == args
      modifies this`status, this`trace
      ensures var e := Exec(os, cell, old(status), old(trace), args, actions, bg);
        cell' == e.cell && status == e.status && trace == e.trace && halt == e.halt
    {
      var r := os.spawn(trace, ArgsAt(argv[..], off), actions);
      trace := trace + [Spawn(ArgsAt(argv[..], off), actions, r)];
      cell' := if r.Spawned? then r.pid else cell;
      halt := None;
      if !bg {
        var w := os.wait(trace, cell');
        trace := trace + [Wait(cell', w)];
        if w.Reaped? {
          status := w.status;
        } else {
          halt := Some(EXIT_FAILURE);
        }
      }
    }

    /** `setup_output_redir`: find `>`, add the open of the slot after it
        to `actions`, and return the operator's index. */
    method SetupOutputRedir(argv: array<CStr>, ghost args: seq<string>, actions: seq<FileAction>)
      returns (k: nat, actions': seq<FileAction>, halt: Option<int>)
      requires Layout(argv[..], args) && args != []
      ensures k == FindIndexOf(args, ">")
      ensures os.addOpen(trace, actions, OutputAction(args)) ==>
        halt == None && actions' == actions + [OutputAction(args)]
      ensures !os.addOpen(trace, actions, OutputAction(args)) ==>
        halt == Some(EXIT_FAILURE) && actions' == actions
    {
      k := FindIndex(argv, args, ">");
      var path := argv[k + 1];
      SlotAfter(argv[..], args, k);
      var act := Open(STDOUT_FILENO, path, O_WRONLY | O_CREAT | O_TRUNC, S_IRUSR | S_IWUSR);
      if !os.addOpen(trace, actions, act) {
        return k, actions, Some(EXIT_FAILURE);
      }
      return k, actions + [act], None;
    }

    /** `setup_input_redir`: find `<`, add the open of the slot after it to
        `actions`, and return the operator's index. */
    method SetupInputRedir(argv: array<CStr>, ghost args: seq<string>, actions: seq<FileAction>)
      returns (k: nat, actions': seq<FileAction>, halt: Option<int>)
      requires Layout(argv[..], args) && args != []
      ensures k == FindIndexOf(args, "<")
      ensures os.addOpen(trace, actions, InputAction(args)) ==>
        halt == None && actions' == actions + [InputAction(args)]
      ensures !os.addOpen(trace, actions, InputAction(args)) ==>
        halt == Some(EXIT_FAILURE) && actions' == actions
    {
      k := FindIndex(argv, args, "<");
      var path := argv[k + 1];
      SlotAfter(argv[..], args, k);
      var act := Open(STDIN_FILENO, path, O_RDONLY, S_IRUSR | S_IWUSR);
      if !os.addOpen(trace, actions, act) {
        return k, actions, Some(EXIT_FAILURE);
      }
      return k, actions + [act], None;
    }

    /** `waitpid(cell, &status, 0)` with its result ignored: `status` changes
        only when a child is reaped. */
    method WaitFor(cell: int)
      modifies this`status, this`trace
      ensures (status, trace) == Reap(os, old(status), old(trace), cell)
    {
      var w := os.wait(trace, cell);
      trace := trace + [Wait(cell, w)];
      if w.Reaped? {
        status := w.status;
      }
    }

    /** The two children of `handle_pipe`, both started in the background:
        the left one writes into the pipe, the right one reads from it. */
    method StartPipeline(line: array<CStr>, ghost args: seq<string>, rd: int, wr: int, cell1: int, cell2: int)
      returns (pid1: int, pid2: int)
      requires Layout(line[..], args) && args != []
      modifies this`status, this`trace, line
      ensures var k := FindIndexOf(args, "|");
        var e1 := Exec(os, cell1, old(status), old(trace), args[..k], [Dup2(wr, STDOUT_FILENO), Close(rd)], true);
        var e2 := Exec(os, cell2, e1.status, e1.trace, args[k + 1..], [Dup2(rd, STDIN_FILENO), Close(wr)], true);
        pid1 == e1.cell && pid2 == e2.cell && status == e2.status && trace == e2.trace
    {
      var actions1: seq<FileAction> := [];
      var actions2: seq<FileAction> := [];
      actions1 := actions1 + [Dup2(wr, STDOUT_FILENO)];
      actions2 := actions2 + [Dup2(rd, STDIN_FILENO)];
      actions1 := actions1 + [Close(rd)];
      actions2 := actions2 + [Close(wr)];
      assert actions1 == [Dup2(wr, STDOUT_FILENO), Close(rd)];
      assert actions2 == [Dup2(rd, STDIN_FILENO), Close(wr)];
      var k, second := SplitAtOperator(line, args, "|");
      var halt;
      pid1, halt := ExecCmd(line, 0, args[..k], actions1, cell1, true);
      pid2, halt := ExecCmd(line, second, args[k + 1..], actions2, cell2, true);
    }

    /** `handle_pipe`. The parsed line is passed by value, so it cuts its own
        copy of the slots. */
    method HandlePipe(argv: array<CStr>, ghost args: seq<string>, bg: bool) returns (r: int)
      requires Layout(argv[..], args) && args != []
      modifies this
      ensures var o := PipeSpec(os, old(State()), args, bg);
        r == o.ret && State() == o.sh
    {
      ghost var sh := State();
      var line := CopyOf(argv);
      var fds := os.pipe(trace);
      trace := trace + [PipeCall(fds)];
      if fds.PipeFailed? {
        assert PipeSpec(os, sh, args, bg) == PipeOut(-1, sh.(trace := trace));
        return -1;
      }
      ghost var spec := PipeUnfold(os, sh, args, bg);
      var pid1 := os.indeterminate(trace, 1);
      var pid2 := os.indeterminate(trace, 2);
      pid1, pid2 := StartPipeline(line, args, fds.readEnd, fds.writeEnd, pid1, pid2);
      ghost var started := trace;
      trace := trace + [CloseFd(fds.readEnd)];
      trace := trace + [CloseFd(fds.writeEnd)];
      assert trace == started + [CloseFd(fds.readEnd), CloseFd(fds.writeEnd)];
      if !bg {
        WaitFor(pid1);
        WaitFor(pid2);
      }
      pid := pid2;
      r := 1;
    }

    /** The opens a redirection line asks for, `<` before `>`, and the slot
        where its command ends: the earlier operator. An action that
        `addopen` refuses to record ends the shell. */
    method PlanRedirect(argv: array<CStr>, ghost args: seq<string>, mode: Mode, bg: bool)
      returns (first: nat, actions: seq<FileAction>, halt: Option<int>)
      requires Layout(argv[..], args) && args != [] && IsRedirect(mode)
      ensures halt.Some? ==> halt == Some(EXIT_FAILURE) && RedirSpec(os, State(), args, mode, bg) == Outcome(State(), Halt(EXIT_FAILURE))
      ensures halt.None? ==> first < |args| && RedirSpec(os, State(), args, mode, bg) == Run(os, State(), args[..first], actions, bg)
    {
      if mode == OutputRedir {
        first, actions, halt := SetupOutputRedir(argv, args, []);
        assert halt.None? ==> actions == [OutputAction(args)];
      } else if mode == InputRedir {
        first, actions, halt := SetupInputRedir(argv, args, []);
        assert halt.None? ==> actions == [InputAction(args)];
      } else {
        first, actions, halt := PlanBoth(argv, args, bg);
      }
    }

    /** `<` and `>` on one line: the input open is added first, and the
        command ends at the earlier operator. */
    method PlanBoth(argv: array<CStr>, ghost args: seq<string>, bg: bool)
      returns (first: nat, actions: seq<FileAction>, halt: Option<int>)
      requires Layout(argv[..], args) && args != []
      ensures halt.Some? ==> halt == Some(EXIT_FAILURE) && RedirSpec(os, State(), args, InputOutputRedir, bg) == Outcome(State(), Halt(EXIT_FAILURE))
      ensures halt.None? ==> first < |args| && RedirSpec(os, State(), args, InputOutputRedir, bg) == Run(os, State(), args[..first], actions, bg)
    {
      var ki, ko;
      ki, actions, halt := SetupInputRedir(argv, args, []);
      if halt.Some? {
        return 0, actions, halt;
      }
      assert actions == [InputAction(args)];
      ko, actions, halt := SetupOutputRedir(argv, args, actions);
      assert halt.None? ==> actions == [InputAction(args), OutputAction(args)];
      first := if ki < ko then ki else ko;
    }

    /** The three redirection cases of `eval`'s `switch`. */
    method RunRedirect(argv: array<CStr>, ghost args: seq<string>, mode: Mode, bg: bool) returns (flow: Flow)
      requires Layout(argv[..], args) && args != [] && IsRedirect(mode)
      modifies this, argv
      ensures Outcome(State(), flow) == RedirSpec(os, old(State()), args, mode, bg)
    {
      var first, actions, halt := PlanRedirect(argv, args, mode, bg);
      if halt.Some? {
        return Halt(halt.value);
      }
      ghost var whole := argv[..];
      var cut := TruncateArgumentList(argv, first);
      CutViews(whole, args, first);
      pid, halt := ExecCmd(cut, 0, args[..first], actions, pid, bg);
      flow := if halt.Some? then Halt(halt.value) else Continue;
    }

    /** The `;`, `&&` and `||` cases of `eval`'s `switch`. */
    method RunList(argv: array<CStr>, ghost args: seq<string>, mode: Mode, bg: bool) returns (flow: Flow)
      requires Layout(argv[..], args) && args != [] && IsList(mode)
      modifies this, argv
      ensures Outcome(State(), flow) == ListSpec(os, old(State()), args, mode, bg)
    {
      ghost var sh := State();
      var k, second := SplitAtOperator(argv, args, OperatorOf(mode));
      var halt;
      pid, halt := ExecCmd(argv, 0, args[..k], [], pid, bg);
      flow := RunRight(argv, second, args[k + 1..], mode, bg, halt);
    }

    /** The rest of a list once the left command has run and `halt` says
        whether it ended the shell. */
    method RunRight(argv: array<CStr>, second: nat, ghost right: seq<string>, mode: Mode, bg: bool, halt: Option<int>)
      returns (flow: Flow)
      requires second <= argv.Length && ArgsAt(argv[..], second) == right
      modifies this`pid, this`status, this`trace
      ensures Outcome(State(), flow) ==
        AfterLeft(os, Outcome(old(State()), if halt.Some? then Halt(halt.value) else Continue), right, mode, bg)
    {
      if halt.Some? {
        return Halt(halt.value);
      }
      if mode == AndIf && status != 0 {
        return Return;
      }
      if mode == OrIf && status == 0 {
        return Return;
      }
      var h;
      pid, h := ExecCmd(argv, second, right, [], pid, bg);
      flow := if h.Some? then Halt(h.value) else Continue;
    }

    /** `eval`'s `switch` on the mode. */
    method DispatchMode(argv: array<CStr>, ghost args: seq<string>, mode: Mode, bg: bool) returns (flow: Flow)
      requires Layout(argv[..], args) && args != []
      modifies this, argv
      ensures Outcome(State(), flow) == Dispatch(os, old(State()), args, mode, bg)
    {
      match mode {
        case Simple =>
          LayoutArgs(argv[..], args, 0);
          var halt;
          pid, halt := ExecCmd(argv, 0, args, [], pid, bg);
          flow := if halt.Some? then Halt(halt.value) else Continue;
        case Pipe =>
          var _ := HandlePipe(argv, args, bg);
          flow := Continue;
        case OutputRedir =>
          flow := RunRedirect(argv, args, mode, bg);
        case InputRedir =>
          flow := RunRedirect(argv, args, mode, bg);
        case InputOutputRedir =>
          flow := RunRedirect(argv, args, mode, bg);
        case Seq =>
          flow := RunList(argv, args, mode, bg);
        case AndIf =>
          flow := RunList(argv, args, mode, bg);
        case OrIf =>
          flow := RunList(argv, args, mode, bg);
      }
    }

    /** `builtin_command` on the first word: `exit` ends the shell with
        `EXIT_SUCCESS`, `?` reports `pid` and `status >> 8`, `&` does
        nothing; `handled` is its non-zero result. */
    method BuiltinCommand(arg0: string) returns (handled: bool, halt: Option<int>)
      modifies this`trace
      ensures handled <==> BuiltinOf(arg0) != NotBuiltin
      ensures halt.Some? <==> BuiltinOf(arg0) == Exit
      ensures halt.Some? ==> halt.value == EXIT_SUCCESS
      ensures BuiltinOf(arg0) == Report ==> trace == old(trace) + [StatusReport(pid, StatusCode(status))]
      ensures BuiltinOf(arg0) != Report ==> trace == old(trace)
    {
      match BuiltinOf(arg0) {
        case Exit =>
          return true, Some(EXIT_SUCCESS);
        case Ignore =>
          return true, None;
        case Report =>
          trace := trace + [StatusReport(pid, StatusCode(status))];
          return true, None;
        case NotBuiltin =>
          return false, None;
      }
    }

    /** What `eval` does after its `switch`. */
    method Finish(flow: Flow, bg: bool, cmdline: string) returns (halt: Option<int>)
      modifies this`trace
      ensures Step(State(), halt) == Conclude(Outcome(old(State()), flow), bg, cmdline)
    {
      match flow {
        case Halt(code) =>
          return Some(code);
        case Return =>
          return None;
        case Continue =>
          if bg {
            trace := trace + [BackgroundReport(pid, cmdline)];
          }
          return None;
      }
    }

    /** `eval` on a line with words: the builtins first, then the mode's
        case and the end of `eval`. */
    method RunCommand(argv: array<CStr>, ghost args: seq<string>, mode: Mode, bg: bool, cmdline: string)
      returns (halt: Option<int>)
      requires Layout(argv[..], args) && args != []
      modifies this, argv
      ensures Step(State(), halt) == Command(os, old(State()), args, mode, bg, cmdline)
    {
      ghost var sh := State();
      assert argv[0] == Str(args[0]);
      var handled;
      handled, halt := BuiltinCommand(argv[0].text);
      if handled {
        return;
      }
      var flow := DispatchMode(argv, args, mode, bg);
      halt := Finish(flow, bg, cmdline);
    }

    /** `eval` on one line read by `fgets`: copy it into a buffer of its own,
        parse it, ignore it when it has no words, try the builtins, then the
        mode's case, and report a background line unless the case returned
        early. */
    method Eval(cmdline: string) returns (halt: Option<int>)
      requires 1 <= |cmdline| < MAX_LINE
      requires forall i :: 0 <= i < |cmdline| ==> cmdline[i] != '\0'
      requires |Tokens(Prepared(cmdline))| < MAX_ARGS
      modifies this
      ensures Step(State(), halt) == EvalSpec(os, old(State()), cmdline)
    {
      ghost var sh := State();
      ghost var p := ParseSpec(cmdline);
      var buf := new char[|cmdline| + 1](i => if 0 <= i < |cmdline| then cmdline[i] else '\0');
      assert buf[..buf.Length - 1] == cmdline;
      var argv, argc, shape, ptrs := ParseLine(buf);
      if argv[0] == Null {
        assert p.argv == [];
        return None;
      }
      assert p.argv != [] && State() == sh;
      assert EvalSpec(os, sh, cmdline) == Command(os, sh, p.argv, p.shape.mode, p.shape.bg, cmdline);
      halt := RunCommand(argv, p.argv, shape.mode, shape.bg, cmdline);
    }
  }
}

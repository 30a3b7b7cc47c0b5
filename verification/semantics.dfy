/**
  What `eval` does with a parsed line, stated on values. The operating system
  is an oracle: every answer `posix_spawnp`, `waitpid`, `pipe` and
  `posix_spawn_file_actions_addopen` give is a function of everything the
  shell has done before (the trace), so one model covers every behaviour of
  the system. The shell's observable behaviour is the trace of events it
  produces, together with its `static` `pid` and `status`.
 */
module Semantics {
  import opened Defs
  import opened Argv
  import opened Parser

  datatype SpawnResult = Spawned(pid: int) | SpawnFailed(errno: int)
  datatype WaitResult = Reaped(status: int) | WaitFailed(errno: int)
  datatype PipeResult = PipeFds(readEnd: int, writeEnd: int) | PipeFailed(errno: int)

  /** What the shell does that the outside world can see. */
  datatype Event =
    | Spawn(argv: seq<string>, actions: seq<FileAction>, spawned: SpawnResult)
    | Wait(pid: int, waited: WaitResult)
    | PipeCall(fds: PipeResult)
    | CloseFd(fd: int)
    /** `printf("%d %s", pid, cmdline)` after a background line. */
    | BackgroundReport(pid: int, line: string)
    /** The `?` builtin's `printf("\npid:%d status:%d\n", pid, status >> 8)`. */
    | StatusReport(pid: int, code: int)

  /** The operating system's answers, as functions of the trace so far.
      `addOpen` sees the actions already in the object it extends;
      `indeterminate` is the value an uninitialised local `pid_t` holds. */
  datatype Os = Os(
    spawn: (seq<Event>, seq<string>, seq<FileAction>) -> SpawnResult,
    wait: (seq<Event>, int) -> WaitResult,
    pipe: seq<Event> -> PipeResult,
    addOpen: (seq<Event>, seq<FileAction>, FileAction) -> bool,
    indeterminate: (seq<Event>, nat) -> int)

  /** The shell's state: the `static` `pid` and `status` of `eval`, and the
      events so far. */
  datatype Sh = Sh(pid: int, status: int, trace: seq<Event>)

  /** How a piece of `eval` ends: on to the background report, an early
      `return` from `eval`, or `exit` with a code. */
  datatype Flow = Continue | Return | Halt(code: int)

  datatype Outcome = Outcome(sh: Sh, flow: Flow)

  /** The state after one line, and the exit code if the shell exited. */
  datatype Step = Step(sh: Sh, halt: Option<int>)

  /** A program start the shell asked for: its argument vector and the file
      actions the child performs first. */
  datatype Request = Request(argv: seq<string>, actions: seq<FileAction>)

  function Requested(e: Event): seq<Request> {
    if e.Spawn? then [Request(e.argv, e.actions)] else []
  }

  /** Every program start requested in `t`, in order. */
  function Spawns(t: seq<Event>): (r: seq<Request>)
    ensures |r| <= |t|
  {
    if t == [] then [] else Spawns(t[..|t| - 1]) + Requested(t[|t| - 1])
  }

  /** One more event adds the request it makes, if any. */
  lemma SpawnsSnoc(t: seq<Event>, e: Event)
    ensures Spawns(t + [e]) == Spawns(t) + Requested(e)
  {
    assert (t + [e])[..|t|] == t;
  }

  /** The result of `exec_cmd`: the new value of the `pid` cell it was given,
      the new status, the trace, and the exit code if `unix_error` ended the
      shell. */
  datatype ExecOut = ExecOut(cell: int, status: int, trace: seq<Event>, halt: Option<int>)

  /** `exec_cmd`: `posix_spawnp`, which sets the pid cell only on success;
      then, in the foreground, `waitpid` on the cell, which sets the status
      when it reaps the child and otherwise ends the shell with
      `EXIT_FAILURE`. In the background the status is left alone. */
  function Exec(os: Os, cell: int, status: int, trace: seq<Event>,
                argv: seq<string>, actions: seq<FileAction>, bg: bool): (e: ExecOut)
    ensures bg ==> e.halt == None && e.status == status
    ensures e.halt.Some? ==> e.halt.value == EXIT_FAILURE
    ensures |trace| < |e.trace| && e.trace[..|trace|] == trace
  {
    var r := os.spawn(trace, argv, actions);
    var t1 := trace + [Spawn(argv, actions, r)];
    var c := if r.Spawned? then r.pid else cell;
    if bg then ExecOut(c, status, t1, None)
    else
      var w := os.wait(t1, c);
      var t2 := t1 + [Wait(c, w)];
      match w
      case Reaped(st) => ExecOut(c, st, t2, None)
      case WaitFailed(_) => ExecOut(c, status, t2, Some(EXIT_FAILURE))
  }

  /** Every `exec_cmd` requests exactly one program start, with the given
      vector and actions. The pid cell becomes the child's pid when the
      start succeeds and keeps its old value when it fails. Exactly in the
      foreground it then waits on that cell; the status becomes the reaped
      child's status, stays as it was when the wait fails, and only a failed
      wait ends the shell. */
  lemma ExecSpawnsOnce(os: Os, cell: int, status: int, trace: seq<Event>,
                       argv: seq<string>, actions: seq<FileAction>, bg: bool)
    ensures var e := Exec(os, cell, status, trace, argv, actions, bg);
      var r := os.spawn(trace, argv, actions);
      var n := |trace|;
      && Spawns(e.trace) == Spawns(trace) + [Request(argv, actions)]
      && e.trace[n] == Spawn(argv, actions, r)
      && e.cell == (if r.Spawned? then r.pid else cell)
      && (bg <==> |e.trace| == n + 1)
      && (!bg ==> |e.trace| == n + 2 && e.trace[n + 1].Wait? && e.trace[n + 1].pid == e.cell)
      && (!bg && e.trace[n + 1].waited.Reaped? ==> e.status == e.trace[n + 1].waited.status)
      && (!bg && e.trace[n + 1].waited.WaitFailed? ==> e.status == status)
      && (e.halt.Some? <==> !bg && e.trace[n + 1].waited.WaitFailed?)
  {
    var r := os.spawn(trace, argv, actions);
    var t1 := trace + [Spawn(argv, actions, r)];
    var c := if r.Spawned? then r.pid else cell;
    SpawnsSnoc(trace, Spawn(argv, actions, r));
    if !bg {
      SpawnsSnoc(t1, Wait(c, os.wait(t1, c)));
    }
  }

  /** `exec_cmd` on the shell's own `pid` cell, as a piece of `eval`. */
  function Run(os: Os, sh: Sh, argv: seq<string>, actions: seq<FileAction>, bg: bool): (o: Outcome)
    ensures o.flow != Return
  {
    var e := Exec(os, sh.pid, sh.status, sh.trace, argv, actions, bg);
    Outcome(Sh(e.cell, e.status, e.trace), if e.halt.Some? then Halt(e.halt.value) else Continue)
  }

  lemma RunSpawnsOnce(os: Os, sh: Sh, argv: seq<string>, actions: seq<FileAction>, bg: bool)
    ensures Spawns(Run(os, sh, argv, actions, bg).sh.trace) == Spawns(sh.trace) + [Request(argv, actions)]
  {
    ExecSpawnsOnce(os, sh.pid, sh.status, sh.trace, argv, actions, bg);
  }

  /** The slot after a redirection operator at `k`: the path, or NULL when
      the operator is the last word. */
  function PathAfter(args: seq<string>, k: nat): (c: CStr)
    ensures c.Str? <==> k + 1 < |args|
    ensures c.Str? ==> c.text == args[k + 1]
  {
    if k + 1 < |args| then Str(args[k + 1]) else Null
  }

  /** `setup_input_redir`'s action: open the word after `<` read-only as
      standard input. */
  function InputAction(args: seq<string>): (a: FileAction)
    ensures a.Open? && a.fd == STDIN_FILENO && a.flags == 0x0 && a.perms == 0x180
    ensures Counts(args, "<") ==>
      var k := FindIndexOf(args, "<");
      args[k] == "<" && (a.path.Str? <==> k + 1 < |args|) && (a.path.Str? ==> a.path.text == args[k + 1])
  {
    Open(STDIN_FILENO, PathAfter(args, FindIndexOf(args, "<")), O_RDONLY, S_IRUSR | S_IWUSR)
  }

  /** `setup_output_redir`'s action: open the word after `>` for writing,
      created or truncated, owner read/write, as standard output. */
  function OutputAction(args: seq<string>): (a: FileAction)
    ensures a.Open? && a.fd == STDOUT_FILENO && a.flags == 0x241 && a.perms == 0x180
    ensures Counts(args, ">") ==>
      var k := FindIndexOf(args, ">");
      args[k] == ">" && (a.path.Str? <==> k + 1 < |args|) && (a.path.Str? ==> a.path.text == args[k + 1])
  {
    Open(STDOUT_FILENO, PathAfter(args, FindIndexOf(args, ">")), O_WRONLY | O_CREAT | O_TRUNC, S_IRUSR | S_IWUSR)
  }

  predicate IsRedirect(mode: Mode) {
    mode == InputRedir || mode == OutputRedir || mode == InputOutputRedir
  }

  /** The three redirection cases of `eval`: add the open actions (one that
      `addopen` refuses to record ends the shell with `EXIT_FAILURE`), cut the vector at the operator
      (at the earlier one when there are two) and run what is left. */
  function RedirSpec(os: Os, sh: Sh, args: seq<string>, mode: Mode, bg: bool): (o: Outcome)
    requires args != [] && IsRedirect(mode)
    ensures o.flow != Return
  {
    var ki := FindIndexOf(args, "<");
    var ko := FindIndexOf(args, ">");
    if mode == InputRedir then
      if !os.addOpen(sh.trace, [], InputAction(args)) then Outcome(sh, Halt(EXIT_FAILURE))
      else Run(os, sh, args[..ki], [InputAction(args)], bg)
    else if mode == OutputRedir then
      if !os.addOpen(sh.trace, [], OutputAction(args)) then Outcome(sh, Halt(EXIT_FAILURE))
      else Run(os, sh, args[..ko], [OutputAction(args)], bg)
    else
      if !os.addOpen(sh.trace, [], InputAction(args)) then Outcome(sh, Halt(EXIT_FAILURE))
      else if !os.addOpen(sh.trace, [InputAction(args)], OutputAction(args)) then Outcome(sh, Halt(EXIT_FAILURE))
      else Run(os, sh, args[..if ki < ko then ki else ko], [InputAction(args), OutputAction(args)], bg)
  }

  predicate IsList(mode: Mode) {
    mode == Seq || mode == AndIf || mode == OrIf
  }

  /** `;`, `&&` and `||`: split at the operator, run the left command, then
      decide on the right one. */
  function ListSpec(os: Os, sh: Sh, args: seq<string>, mode: Mode, bg: bool): (o: Outcome)
    requires args != [] && IsList(mode)
    ensures |sh.trace| < |o.sh.trace| && o.sh.trace[..|sh.trace|] == sh.trace
    ensures o.flow.Halt? ==> !bg && o.flow.code == EXIT_FAILURE
    ensures o.flow == Return ==> mode != Seq
    ensures bg ==> o.sh.status == sh.status
  {
    var k := FindIndexOf(args, OperatorOf(mode));
    AfterLeft(os, Run(os, sh, args[..k], [], bg), args[k + 1..], mode, bg)
  }

  /** After the left command of a list: stop if it ended the shell; `&&`
      returns from `eval` when the status is then non-zero, `||` when it is
      zero; otherwise run the right command. */
  function AfterLeft(os: Os, first: Outcome, right: seq<string>, mode: Mode, bg: bool): (o: Outcome)
    ensures |first.sh.trace| <= |o.sh.trace| && o.sh.trace[..|first.sh.trace|] == first.sh.trace
    ensures o.flow == Return ==> o.sh == first.sh && !first.flow.Halt? && mode != Seq
    ensures o.flow.Halt? ==> first.flow.Halt? || (!bg && o.flow.code == EXIT_FAILURE)
    ensures bg ==> o.sh.status == first.sh.status
  {
    if first.flow.Halt? then first
    else if mode == AndIf && first.sh.status != 0 then Outcome(first.sh, Return)
    else if mode == OrIf && first.sh.status == 0 then Outcome(first.sh, Return)
    else Run(os, first.sh, right, [], bg)
  }

  /** `waitpid(pid, status, 0)` whose result is ignored: the status changes
      only when a child is reaped. */
  function Reap(os: Os, status: int, trace: seq<Event>, pid: int): (r: (int, seq<Event>))
    ensures |r.1| == |trace| + 1 && r.1[..|trace|] == trace
    ensures r.1[|trace|].Wait? && r.1[|trace|].pid == pid
    ensures r.1[|trace|].waited.Reaped? ==> r.0 == r.1[|trace|].waited.status
    ensures r.1[|trace|].waited.WaitFailed? ==> r.0 == status
  {
    var w := os.wait(trace, pid);
    (if w.Reaped? then w.status else status, trace + [Wait(pid, w)])
  }

  datatype PipeOut = PipeOut(ret: int, sh: Sh)

  /** `handle_pipe`. A failing `pipe` returns -1 at once. Otherwise the left
      command gets the write end as standard output and closes the read end,
      the right command the reverse; both are started in the background into
      local pid cells that start out indeterminate; the shell closes both
      ends, waits for both children unless the line is a background one, sets
      `pid` to the right child's cell and returns 1. */
  function PipeSpec(os: Os, sh: Sh, args: seq<string>, bg: bool): (o: PipeOut)
    requires args != []
    ensures o.ret == -1 <==> os.pipe(sh.trace).PipeFailed?
    ensures o.ret == 1 <==> os.pipe(sh.trace).PipeFds?
    ensures |sh.trace| < |o.sh.trace| && o.sh.trace[..|sh.trace|] == sh.trace
    ensures o.sh.trace[|sh.trace|] == PipeCall(os.pipe(sh.trace))
    ensures bg ==> o.sh.status == sh.status
  {
    var fds := os.pipe(sh.trace);
    var t0 := sh.trace + [PipeCall(fds)];
    match fds
    case PipeFailed(_) => PipeOut(-1, sh.(trace := t0))
    case PipeFds(rd, wr) =>
      var k := FindIndexOf(args, "|");
      var e1 := Exec(os, os.indeterminate(t0, 1), sh.status, t0, args[..k],
                     [Dup2(wr, STDOUT_FILENO), Close(rd)], true);
      var e2 := Exec(os, os.indeterminate(t0, 2), e1.status, e1.trace, args[k + 1..],
                     [Dup2(rd, STDIN_FILENO), Close(wr)], true);
      var t1 := e2.trace + [CloseFd(rd), CloseFd(wr)];
      if bg then PipeOut(1, Sh(e2.cell, e2.status, t1))
      else
        var w1 := Reap(os, e2.status, t1, e1.cell);
        var w2 := Reap(os, w1.0, w1.1, e2.cell);
        PipeOut(1, Sh(e2.cell, w2.0, w2.1))
  }

  /** `handle_pipe` after a successful `pipe`, step by step. */
  lemma PipeUnfold(os: Os, sh: Sh, args: seq<string>, bg: bool) returns (r: PipeOut)
    requires args != [] && os.pipe(sh.trace).PipeFds?
    ensures r == PipeSpec(os, sh, args, bg)
    ensures var fds := os.pipe(sh.trace);
      var rd := fds.readEnd;
      var wr := fds.writeEnd;
      var t0 := sh.trace + [PipeCall(fds)];
      var k := FindIndexOf(args, "|");
      var e1 := Exec(os, os.indeterminate(t0, 1), sh.status, t0, args[..k], [Dup2(wr, STDOUT_FILENO), Close(rd)], true);
      var e2 := Exec(os, os.indeterminate(t0, 2), e1.status, e1.trace, args[k + 1..], [Dup2(rd, STDIN_FILENO), Close(wr)], true);
      var t1 := e2.trace + [CloseFd(rd), CloseFd(wr)];
      var w1 := Reap(os, e2.status, t1, e1.cell);
      var w2 := Reap(os, w1.0, w1.1, e2.cell);
      && r.ret == 1 && r.sh.pid == e2.cell
      && (bg ==> r.sh.trace == t1 && r.sh.status == e2.status)
      && (!bg ==> r.sh.trace == w2.1 && r.sh.status == w2.0)
  {
    r := PipeSpec(os, sh, args, bg);
  }

  /** The `switch` of `eval` on the line's mode. `handle_pipe`'s result is
      never 0, so `eval` always carries on after it. */
  function Dispatch(os: Os, sh: Sh, args: seq<string>, mode: Mode, bg: bool): (o: Outcome)
    requires args != []
    ensures |sh.trace| <= |o.sh.trace| && o.sh.trace[..|sh.trace|] == sh.trace
    ensures o.flow.Halt? ==> o.flow.code == EXIT_FAILURE
    ensures o.flow == Return ==> mode == AndIf || mode == OrIf
    ensures bg ==> o.sh.status == sh.status
  {
    match mode
    case Simple => Run(os, sh, args, [], bg)
    case Pipe => Outcome(PipeSpec(os, sh, args, bg).sh, Continue)
    case InputRedir => RedirSpec(os, sh, args, mode, bg)
    case OutputRedir => RedirSpec(os, sh, args, mode, bg)
    case InputOutputRedir => RedirSpec(os, sh, args, mode, bg)
    case Seq => ListSpec(os, sh, args, mode, bg)
    case AndIf => ListSpec(os, sh, args, mode, bg)
    case OrIf => ListSpec(os, sh, args, mode, bg)
  }

  datatype Builtin = Exit | Ignore | Report | NotBuiltin

  /** `builtin_command`'s decision on the first word. */
  function BuiltinOf(arg0: string): (b: Builtin)
    ensures b == NotBuiltin <==> arg0 != "exit" && arg0 != "&" && arg0 != "?"
  {
    if arg0 == "exit" then Exit
    else if arg0 == "&" then Ignore
    else if arg0 == "?" then Report
    else NotBuiltin
  }

  /** `status >> 8` on a C `int`: an arithmetic shift, which rounds toward
      minus infinity. */
  function StatusCode(status: int): (c: int)
    ensures c * 256 <= status < c * 256 + 256
  {
    status / 256
  }

  /** `eval` on one input line: ignore a line without words, otherwise run
      its words as a command. */
  function EvalSpec(os: Os, sh: Sh, cmdline: string): (s: Step)
    requires |cmdline| >= 1
    ensures |sh.trace| <= |s.sh.trace| && s.sh.trace[..|sh.trace|] == sh.trace
    ensures s.halt.Some? ==> s.halt.value == EXIT_SUCCESS || s.halt.value == EXIT_FAILURE
    ensures s.halt == Some(EXIT_SUCCESS) ==> ParseSpec(cmdline).argv != [] && ParseSpec(cmdline).argv[0] == "exit"
  {
    var p := ParseSpec(cmdline);
    if p.argv == [] then Step(sh, None)
    else Command(os, sh, p.argv, p.shape.mode, p.shape.bg, cmdline)
  }

  /** `eval` once the line has words: run a builtin if the first word is
      one, otherwise dispatch on the mode and finish. */
  function Command(os: Os, sh: Sh, args: seq<string>, mode: Mode, bg: bool, cmdline: string): (s: Step)
    requires args != []
    ensures |sh.trace| <= |s.sh.trace| && s.sh.trace[..|sh.trace|] == sh.trace
    ensures s.halt == Some(EXIT_SUCCESS) <==> args[0] == "exit"
    ensures s.halt.Some? && args[0] != "exit" ==> s.halt == Some(EXIT_FAILURE)
    ensures args[0] == "&" || args[0] == "?" ==> s.sh.pid == sh.pid && s.sh.status == sh.status
    ensures bg ==> s.sh.status == sh.status
  {
    match BuiltinOf(args[0])
    case Exit => Step(sh, Some(EXIT_SUCCESS))
    case Ignore => Step(sh, None)
    case Report => Step(sh.(trace := sh.trace + [StatusReport(sh.pid, StatusCode(sh.status))]), None)
    case NotBuiltin => Conclude(Dispatch(os, sh, args, mode, bg), bg, cmdline)
  }

  /** The end of `eval` after its `switch`: `exit` ends the shell, an early
      `return` skips the rest, and a background line is reported with the
      final `pid`. */
  function Conclude(o: Outcome, bg: bool, cmdline: string): (s: Step)
    ensures s.halt.Some? <==> o.flow.Halt?
    ensures o.flow.Halt? ==> s.halt.value == o.flow.code
    ensures s.sh.pid == o.sh.pid && s.sh.status == o.sh.status
    ensures s.sh.trace == o.sh.trace + (if bg && o.flow == Continue then [BackgroundReport(o.sh.pid, cmdline)] else [])
  {
    match o.flow
    case Halt(c) => Step(o.sh, Some(c))
    case Return => Step(o.sh, None)
    case Continue =>
      if bg then Step(o.sh.(trace := o.sh.trace + [BackgroundReport(o.sh.pid, cmdline)]), None)
      else Step(o.sh, None)
  }
}

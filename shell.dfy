/**
  The shell process as an object whose state the functions of src/cmd.c
  change in place: `setenv` changes the environment, `chdir` the working
  directory and `dup2` the standard streams. A forked child is a fresh
  object that starts as a copy of its parent; nothing it changes reaches the
  parent. Every method is proved to do what module Evaluator says.
*/
module Shell {
  import opened Wrappers
  import opened Commands
  import opened Host
  import opened Redirections
  import opened Builtins
  import opened Evaluator

  class Process {
    var env: Env
    var cwd: string
    var fds: Fds
    /** The events this process and the children it waited for produced, in order. */
    ghost var events: seq<Event>

    function Snapshot(): State
      reads this`env, this`cwd, this`fds
    {
      State(env, cwd, fds)
    }

    /** The child of a `fork`: a copy of the parent's environment, directory and descriptors. */
    constructor Fork(parent: Process)
      ensures Snapshot() == parent.Snapshot() && events == []
    {
      env, cwd, fds := parent.env, parent.cwd, parent.fds;
      events := [];
    }

    /** `redirect_input`: standard input reads the file. */
    method RedirectInput(w: Word, os: Oracle)
      modifies this`fds
      ensures fds == old(fds).(stdin := File(Resolve(w, env, os), ReadOnly))
    {
      var filename := os.getWord(w.Parts(), env);
      fds := fds.(stdin := File(filename, ReadOnly));
    }

    /** `redirect_output`: append exactly when `io_flags == IO_OUT_APPEND`. */
    method RedirectOutput(w: Word, ioFlags: int, os: Oracle, k: Consts)
      modifies this`fds
      ensures fds == old(fds).(stdout := File(Resolve(w, env, os), OutputMode(k, ioFlags)))
      ensures fds.stdout.mode == Append <==> ioFlags == k.ioOutAppend
    {
      var filename := os.getWord(w.Parts(), env);
      var mode := if ioFlags == k.ioOutAppend then Append else Truncate;
      fds := fds.(stdout := File(filename, mode));
    }

    /** `redirect_error`: append exactly when `io_flags == IO_ERR_APPEND`. */
    method RedirectError(w: Word, ioFlags: int, os: Oracle, k: Consts)
      modifies this`fds
      ensures fds == old(fds).(stderr := File(Resolve(w, env, os), ErrorMode(k, ioFlags)))
      ensures fds.stderr.mode == Append <==> ioFlags == k.ioErrAppend
    {
      var filename := os.getWord(w.Parts(), env);
      var mode := if ioFlags == k.ioErrAppend then Append else Truncate;
      fds := fds.(stderr := File(filename, mode));
    }

    /** `redirect_both_out_and_err`: output appends and error truncates, whatever `io_flags` says. */
    method RedirectBothOutAndErr(s: SimpleCommand, os: Oracle)
      requires s.outFile.Some? && s.errFile.Some?
      modifies this`fds
      ensures fds == old(fds).(stdout := File(Resolve(s.outFile.value, env, os), Append),
                               stderr := File(Resolve(s.errFile.value, env, os), Truncate))
    {
      var filenameOut := os.getWord(s.outFile.value.Parts(), env);
      var filenameErr := os.getWord(s.errFile.value.Parts(), env);
      fds := fds.(stdout := File(filenameOut, Append));
      fds := fds.(stderr := File(filenameErr, Truncate));
    }

    /** `perform_redirections`: carries out the redirection plan of `s` on this process's streams. */
    method PerformRedirections(s: SimpleCommand, os: Oracle, k: Consts)
      modifies this`fds
      ensures fds == ApplyPlan(old(fds), RedirectionPlan(s, env, os, k))
    {
      if s.inFile.Some? {
        RedirectInput(s.inFile.value, os);
      }
      if s.outFile.Some? {
        if s.errFile.None? {
          RedirectOutput(s.outFile.value, s.ioFlags, os, k);
          return;
        }
        RedirectBothOutAndErr(s, os);
        return;
      }
      if s.errFile.Some? {
        RedirectError(s.errFile.value, s.ioFlags, os, k);
        return;
      }
    }

    /** `shell_cd`: `chdir` to the resolved word; true (failure) exactly when `chdir` fails. */
    method ShellCd(dir: Option<Word>, os: Oracle) returns (failed: bool)
      modifies this`cwd
      ensures
        var moved := os.chdir(old(cwd), if dir.Some? then Some(Resolve(dir.value, env, os)) else None);
        && failed == moved.None?
        && cwd == if moved.Some? then moved.value else old(cwd)
    {
      var dirName := if dir.Some? then Some(os.getWord(dir.value.Parts(), env)) else None;
      var moved := os.chdir(cwd, dirName);
      if moved.Some? {
        cwd := moved.value;
      }
      failed := moved.None?;
    }

    /** `complete_cd_command`: redirections on the shell's own streams, then `shell_cd` on the first parameter. */
    method CompleteCdCommand(s: SimpleCommand, os: Oracle, k: Consts) returns (failed: bool)
      modifies this`fds, this`cwd
      ensures Snapshot() == CdOutcome(s, old(Snapshot()), os, k).state
      ensures (if failed then 1 else 0) == CdOutcome(s, old(Snapshot()), os, k).status
    {
      PerformRedirections(s, os, k);
      failed := ShellCd(if s.params == [] then None else Some(s.params[0]), os);
    }

    /** `assign_environment_variable`: checks the syntax, then `setenv` with overwrite. */
    method AssignEnvironmentVariable(s: SimpleCommand, os: Oracle) returns (r: int)
      requires s.verb.tail != []
      modifies this`env
      ensures r == AssignOutcome(s, old(Snapshot()), os).status
      ensures Snapshot() == AssignOutcome(s, old(Snapshot()), os).state
    {
      if s.verb.tail[0].text != "=" || |s.verb.tail| < 2 {
        return 0;
      }
      var name := s.verb.head.text;
      var value := os.getWord(s.verb.tail[1..], env);
      if os.setenvFails(name, value) {
        return -1;
      }
      env := env[name := value];
      return 0;
    }

    /**
      `execute_external_command`: the child redirects its own copy of the
      streams and starts the program; this process waits and takes the low
      byte of the child's exit code. A failed `fork` yields 0.
    */
    method ExecuteExternalCommand(s: SimpleCommand, at: Path, os: Oracle, k: Consts) returns (status: int)
      modifies this`events
      ensures status == ExternalOutcome(s, at, Snapshot(), os, k).status
      ensures events == old(events) + ExternalOutcome(s, at, Snapshot(), os, k).events
    {
      if os.forkFails(at, 0) {
        return 0;
      }
      var child := new Process.Fork(this);
      child.PerformRedirections(s, os, k);
      var argv := os.getArgv(s, child.env);
      var inv := Invocation(argv, child.env, child.cwd, child.fds);
      events := events + [Spawn(at, inv)];
      var code := ExitArgument(os.run(at, inv));
      status := LowByte(code);
    }

    /** `parse_simple`: null command, `exit`/`quit`, `cd`, assignment, external program, in that order. */
    method ParseSimple(s: Option<SimpleCommand>, at: Path, os: Oracle, k: Consts) returns (r: int)
      modifies this
      ensures r == EvalSimple(s, at, old(Snapshot()), os, k).status
      ensures Snapshot() == EvalSimple(s, at, old(Snapshot()), os, k).state
      ensures events == old(events) + EvalSimple(s, at, old(Snapshot()), os, k).events
    {
      if s.None? {
        return 0;
      }
      var c := s.value;
      if c.verb.head.text == "exit" {
        return k.shellExit;
      }
      if c.verb.head.text == "quit" {
        return k.shellExit;
      }
      if c.verb.head.text == "cd" {
        var failed := CompleteCdCommand(c, os, k);
        return if failed then 1 else 0;
      }
      if c.verb.tail != [] {
        r := AssignEnvironmentVariable(c, os);
        return;
      }
      r := ExecuteExternalCommand(c, at, os, k);
    }

    /**
      A forked child that evaluates `c` in a copy of this process whose
      standard streams are `childFds`, then passes the status to `exit`;
      this process waits for it. The child's status and events are returned,
      this process is unchanged.
    */
    method RunChild(c: Command, at: Path, childFds: Fds, os: Oracle, k: Consts)
      returns (status: int, ghost childEvents: seq<Event>)
      ensures status == Eval(c, at, Snapshot().(fds := childFds), os, k).status
      ensures childEvents == Eval(c, at, Snapshot().(fds := childFds), os, k).events
      decreases Size(c), 2
    {
      var child := new Process.Fork(this);
      child.fds := childFds;
      status := child.ParseCommand(c, at, os, k);
      childEvents := child.events;
    }

    /**
      `run_in_parallel`: each child evaluates its subtree in its own copy of
      this process; true exactly when both forks succeed and both children
      exit with 0.
    */
    method RunInParallel(c1: Command, c2: Command, at: Path, os: Oracle, k: Consts) returns (ok: bool)
      modifies this`events
      ensures (if ok then 1 else 0) == EvalParallel(c1, c2, at, Snapshot(), os, k).status
      ensures events == old(events) + EvalParallel(c1, c2, at, Snapshot(), os, k).events
      decreases Size(c1) + Size(c2) + 1, 0
    {
      if os.forkFails(at, 0) {
        return false;
      }
      var firstStatus, firstEvents := RunChild(c1, at + [First], fds, os, k);
      if os.forkFails(at, 1) {
        events := events + firstEvents;
        return false;
      }
      var secondStatus, secondEvents := RunChild(c2, at + [Second], fds, os, k);
      events := events + (firstEvents + secondEvents);
      if LowByte(firstStatus) != 0 {
        return false;
      }
      if LowByte(secondStatus) != 0 {
        return false;
      }
      return true;
    }

    /**
      `run_on_pipe`: the first child's standard output is the pipe's write
      end and the second child's standard input its read end; the result is
      the second child's status converted to `bool`.
    */
    method RunOnPipe(c1: Command, c2: Command, at: Path, os: Oracle, k: Consts) returns (failed: bool)
      modifies this`events
      ensures (if failed then 1 else 0) == EvalPipe(c1, c2, at, Snapshot(), os, k).status
      ensures events == old(events) + EvalPipe(c1, c2, at, Snapshot(), os, k).events
      decreases Size(c1) + Size(c2) + 1, 0
    {
      if os.pipeFails(at) {
        return false;
      }
      if os.forkFails(at, 0) {
        return false;
      }
      var firstStatus, firstEvents := RunChild(c1, at + [First], fds.(stdout := PipeWrite), os, k);
      if os.forkFails(at, 1) {
        events := events + firstEvents;
        return false;
      }
      var secondStatus, secondEvents := RunChild(c2, at + [Second], fds.(stdin := PipeRead), os, k);
      events := events + (firstEvents + secondEvents);
      return LowByte(secondStatus) != 0;
    }

    /** `parse_command`: a leaf goes to `parse_simple`, an inner node to its operator. */
    method ParseCommand(c: Command, at: Path, os: Oracle, k: Consts) returns (exitCode: int)
      modifies this
      ensures exitCode == Eval(c, at, old(Snapshot()), os, k).status
      ensures Snapshot() == Eval(c, at, old(Snapshot()), os, k).state
      ensures events == old(events) + Eval(c, at, old(Snapshot()), os, k).events
      decreases Size(c), 1
    {
      ghost var st := Snapshot();
      ghost var before := events;
      events := events + [Visit(at)];
      if c.Leaf? {
        exitCode := ParseSimple(c.scmd, at, os, k);
        AppendAssociates(before, [Visit(at)], EvalSimple(c.scmd, at, st, os, k).events, []);
        return;
      }
      ghost var r1 := Eval(c.cmd1, at + [First], st, os, k);
      match c.op
      case Sequential =>
        var leftStatus := ParseCommand(c.cmd1, at + [First], os, k);
        exitCode := ParseCommand(c.cmd2, at + [Second], os, k);
        AppendAssociates(before, [Visit(at)], r1.events, Eval(c.cmd2, at + [Second], r1.state, os, k).events);
      case Parallel =>
        var ok := RunInParallel(c.cmd1, c.cmd2, at, os, k);
        exitCode := if ok then 1 else 0;
        AppendAssociates(before, [Visit(at)], EvalParallel(c.cmd1, c.cmd2, at, st, os, k).events, []);
      case ConditionalNzero =>
        exitCode := ParseCommand(c.cmd1, at + [First], os, k);
        if exitCode != 0 {
          exitCode := ParseCommand(c.cmd2, at + [Second], os, k);
          AppendAssociates(before, [Visit(at)], r1.events, Eval(c.cmd2, at + [Second], r1.state, os, k).events);
        } else {
          AppendAssociates(before, [Visit(at)], r1.events, []);
        }
      case ConditionalZero =>
        exitCode := ParseCommand(c.cmd1, at + [First], os, k);
        if exitCode == 0 {
          exitCode := ParseCommand(c.cmd2, at + [Second], os, k);
          AppendAssociates(before, [Visit(at)], r1.events, Eval(c.cmd2, at + [Second], r1.state, os, k).events);
        } else {
          AppendAssociates(before, [Visit(at)], r1.events, []);
        }
      case Pipe =>
        var failed := RunOnPipe(c.cmd1, c.cmd2, at, os, k);
        exitCode := if failed then 1 else 0;
        AppendAssociates(before, [Visit(at)], EvalPipe(c.cmd1, c.cmd2, at, st, os, k).events, []);
      case UnknownOp(_) =>
        return k.shellExit;
    }
  }

  lemma AppendAssociates(a: seq<Event>, b: seq<Event>, c: seq<Event>, d: seq<Event>)
    ensures a + b + c + d == a + (b + (c + d))
    ensures a + b + c == a + (b + c)
  {
  }
}

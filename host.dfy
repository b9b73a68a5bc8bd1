/**
  The part of the operating system the evaluator touches: the process state
  (environment, working directory, the three standard streams) and the
  outcomes of calls whose result the evaluator cannot see in advance.
*/
module Host {
  import opened Wrappers
  import opened Commands

  /** How a redirection target is opened: `O_RDONLY`, `O_APPEND` or `O_TRUNC`. */
  datatype Mode = ReadOnly | Append | Truncate

  /** What a standard stream is attached to. */
  datatype Stream =
    | Inherited                       // whatever the shell itself was started with
    | File(path: string, mode: Mode)  // a redirection target
    | PipeRead                        // the read end of the pipe of a `|` node
    | PipeWrite                       // the write end of the pipe of a `|` node

  /** Descriptors 0, 1 and 2 of a process. */
  datatype Fds = Fds(stdin: Stream, stdout: Stream, stderr: Stream)

  type Env = map<string, string>

  /** The per-process state that builtins change and `fork` copies. */
  datatype State = State(env: Env, cwd: string, fds: Fds)

  /** What an external program sees when `execvp` starts it. */
  datatype Invocation = Invocation(argv: seq<string>, env: Env, cwd: string, fds: Fds)

  /** How a forked child that calls `execvp` ends: the call fails, or the program exits with a code. */
  datatype Termination = ExecFailed | Exited(code: int)

  /**
    The outcomes of foreign calls, as total functions:
    - `getWord`: `get_word`, resolving the parts of a word (with variable expansion);
    - `getArgv`: `get_argv`, building the argument vector of a simple command;
    - `run`: how the program started at a leaf ends, given what it is started with;
    - `forkFails(at, n)`: whether the n-th `fork` issued at node `at` fails;
    - `pipeFails(at)`: whether `pipe` fails at node `at`;
    - `chdir(cwd, dir)`: the new directory, or None when `chdir` fails
      (`dir` is None when the `cd` has no parameter word);
    - `setenvFails(name, value)`: whether `setenv` returns -1.
  */
  datatype Oracle = Oracle(
    getWord: (seq<Part>, Env) -> string,
    getArgv: (SimpleCommand, Env) -> seq<string>,
    run: (Path, Invocation) -> Termination,
    forkFails: (Path, nat) -> bool,
    pipeFails: Path -> bool,
    chdir: (string, Option<string>) -> Option<string>,
    setenvFails: (string, string) -> bool)

  /** What happened during an evaluation: a node was evaluated, or a program was started. */
  datatype Event = Visit(at: Path) | Spawn(at: Path, inv: Invocation)

  /** The result of evaluating a node: its exit status, the state afterwards, and the events in order. */
  datatype Outcome = Outcome(status: int, state: State, events: seq<Event>)

  /** All events happened at `at` or below it. */
  ghost predicate Within(at: Path, events: seq<Event>)
  {
    forall e | e in events :: at <= e.at
  }

  /** `WEXITSTATUS` of a child that called `exit(n)`: the low-order byte of `n`. */
  function LowByte(n: int): (b: int)
    ensures 0 <= b < 256
    ensures (n - b) % 256 == 0
  {
    n % 256
  }

  /** The argument a forked child passes to `exit`: 0 when `execvp` fails. */
  function ExitArgument(t: Termination): int
  {
    match t
    case ExecFailed => 0
    case Exited(code) => code
  }
}

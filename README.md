# Mini-Shell command execution, modelled in Dafny

This project models the execution core of Mini-Shell, `src/cmd.c`. Given a parsed command tree, the shell walks it with `parse_command` and returns one integer exit status. It runs builtins (`exit`/`quit`, `cd`, `NAME = value` assignment) in its own process. It forks a child for every external program and for each side of a parallel (`&`) or pipe (`|`) node. It redirects the standard streams of a simple command to files.

The model has two layers.

- **A pure specification** (modules `Commands`, `Host`, `Redirections`, `Builtins`, `Evaluator`).
  - The tree is a datatype: `Leaf(Option<SimpleCommand>)` or `Node(op, cmd1, cmd2)`.
  - The process state is a record `State(env, cwd, fds)`: the environment, the working directory, and what descriptors 0, 1 and 2 are attached to.
  - `Eval` threads this state through sequential and conditional nodes. It hands parallel and pipe children a copy and throws the copy away afterwards.
  - Every evaluation also yields a status and a trace of events: `Visit(path)` when a node is evaluated, `Spawn(path, invocation)` when `execvp` is attempted with a given argv, environment, directory and streams.
- **An imperative model** (module `Shell`). Class `Process` has fields `env`, `cwd` and `fds` that its methods update in place, as `setenv`, `chdir` and `dup2` do. There is one method for each C function of the core except `shell_exit`, whose constant result `ParseSimple` returns directly; `RunChild` gathers the fork, evaluate, `exit` and `waitpid` steps that `run_in_parallel` and `run_on_pipe` repeat for each child. A forked child is a fresh `Process` built by `Fork` as a copy of its parent. Each method's postcondition equates its result and new state with the specification.

Everything the core cannot see is an `Oracle` value of total functions: `get_word`, `get_argv`, how a started program ends, whether `pipe` or the n-th `fork` at a node fails, what `chdir` does, and whether `setenv` fails. The header constants `SHELL_EXIT`, `IO_OUT_APPEND` and `IO_ERR_APPEND` are kept symbolic in a `Consts` value.

The model follows the code where it departs from the usual shell conventions (0 means success, a pipe reports its last command's status):

- A parallel node yields **1** when both children exit with 0, and 0 otherwise. `run_in_parallel` returns `bool`, so 1 here means "both succeeded". A conventional shell would report 0 when both succeed.
- A pipe node yields 0 or 1, not the right child's real status. `run_on_pipe` returns `WEXITSTATUS(status)` through a `bool`, so any non-zero status becomes 1. It also yields 0 when `pipe` or a `fork` fails.
- A failed `execvp` makes the child `exit(0)`, so the parent sees 0. A failed `fork` of an external command also yields 0.
- `io_flags` is compared with `==`, not tested bit by bit. When output and error are both redirected, output appends and error truncates, whatever the flags say.
- `exit`/`quit` only return `SHELL_EXIT`. In `exit ; ls` the sequence goes on, and the node's status is that of `ls`. In a forked child the sentinel reaches the parent only as its low byte.
- Builtin verbs are matched on the raw text of the verb's first part, before expansion.
- When the second `fork` of a parallel or pipe node fails, the first child has already been started and is never waited for; its events are kept. The node still yields 0.

## Model

| member | source | states |
|---|---|---|
| `Host.LowByte` | src/cmd.c:242-245 | the status a parent reads with `WEXITSTATUS` is in 0..255 and congruent to the child's `exit` argument modulo 256 |
| `Redirections.RedirectionPlan` | src/cmd.c:154-176 | input is redirected (read-only) exactly when present. Output alone appends iff `io_flags == IO_OUT_APPEND`, else truncates. Error alone appends iff `io_flags == IO_ERR_APPEND`, else truncates. Output and error together always give append and truncate. Every target is the resolved word |
| `Redirections.NoTargetsNoRedirection` | src/cmd.c:154-176 | with no targets, the descriptors are unchanged |
| `Evaluator.EvalSimple` | src/cmd.c:271-302 | a leaf's status is the sentinel, -1 or a byte, and its events lie at the leaf |
| `Evaluator.Eval` | src/cmd.c:462-502 | every status is `SHELL_EXIT`, -1 or in 0..255; the node is visited first; every event lies in its own subtree |
| `Evaluator.EvalParallel` | src/cmd.c:307-357 | the result is 0 or 1 and the shell's state is unchanged by either child |
| `Evaluator.EvalPipe` | src/cmd.c:362-457 | the result is 0 or 1 and the shell's state is unchanged by either child |
| `Properties.SequentialReturnsRight` | src/cmd.c:471-474 | the status and state are the right subtree's, which runs from the state the left one left; both run, left first |
| `Properties.ExitDoesNotStopSequence` | src/cmd.c:471-474 | `exit` followed by `;` does not stop the right subtree, and the sentinel is replaced by that subtree's status |
| `Properties.ConditionalNzeroRunsRightIffLeftFails` | src/cmd.c:480-485 | the right subtree is evaluated iff the left status is non-zero; otherwise the left status and state stand |
| `Properties.ConditionalZeroRunsRightIffLeftSucceeds` | src/cmd.c:487-491 | the right subtree is evaluated iff the left status is 0; otherwise the left status and state stand |
| `Properties.ParallelSucceedsIffBothExitZero` | src/cmd.c:307-357 | the result is 1 iff both forks succeed and both children's low bytes are 0. Both children start from the shell's state, and the shell's state is unchanged |
| `Properties.PipeReportsRightFailure` | src/cmd.c:362-457 | the result is 1 iff `pipe` and both forks succeed and the right child's low byte is non-zero. The left child writes into the pipe and the right child reads from it. The shell's state is unchanged |
| `Properties.UnknownOperatorExits` | src/cmd.c:497-498 | an unknown operator yields `SHELL_EXIT` and runs nothing |
| `Properties.NullCommandSucceeds` | src/cmd.c:274-275 | a NULL simple command yields 0 and changes nothing |
| `Properties.ExitYieldsSentinel` | src/cmd.c:277-282 | `exit` and `quit` yield `SHELL_EXIT` with no redirection, no program started and no state change |
| `Properties.CdReportsChdir` | src/cmd.c:181-198 | `cd` redirects the shell's own streams. It yields 1 and keeps the directory when `chdir` fails, and yields 0 and moves when it succeeds. The environment is unchanged |
| `Properties.CdIgnoresFurtherWords` | src/cmd.c:193-198 | only the first parameter word of `cd` matters |
| `Properties.AssignmentSetsOneVariable` | src/cmd.c:250-264 | malformed syntax yields 0 and changes nothing, and a failing `setenv` yields -1 and changes nothing. Otherwise exactly `name := value` is set, with overwrite, and nothing else changes |
| `Properties.ExternalRunsInChild` | src/cmd.c:208-248 | the shell's state is unchanged. A failed fork yields 0 and starts nothing. Otherwise the program sees the shell's environment and directory and the redirected streams, and the status is the low byte of its exit code (so exactly the code when it is in 0..255), 0 when `execvp` fails |
| `Properties.OnlyAssignmentChangesEnvironment` | src/cmd.c:250-264 | a tree with no assignment among the leaves the shell runs itself leaves the environment unchanged |
| `Properties.OnlyCdChangesDirectoryAndStreams` | src/cmd.c:181-198 | a tree with no `cd` among the leaves the shell runs itself leaves the directory and the shell's streams unchanged |
| `Properties.NoProgramWithoutExternalLeaf` | src/cmd.c:271-302 | a tree with no external leaf starts no program in any process |
| `Properties.AssignmentVisibleToLaterProgram` | src/cmd.c:471-474 | after `NAME = value ; prog`, `prog` starts with `NAME` bound to `value` |
| `Properties.ParallelSiblingDoesNotSeeAssignment` | src/cmd.c:313-337 | an assignment in one branch of `&` is not in the environment of the program in the other branch |
| `Shell.Process.Fork` | src/cmd.c:314-323 | a forked child starts with its parent's environment, directory and streams |
| `Shell.Process.RedirectInput` | src/cmd.c:19-43 | standard input is attached read-only to the resolved file, and nothing else changes |
| `Shell.Process.RedirectOutput` | src/cmd.c:45-76 | standard output is attached to the resolved file, appending iff `io_flags == IO_OUT_APPEND` |
| `Shell.Process.RedirectError` | src/cmd.c:78-109 | standard error is attached to the resolved file, appending iff `io_flags == IO_ERR_APPEND` |
| `Shell.Process.RedirectBothOutAndErr` | src/cmd.c:111-151 | standard output appends and standard error truncates |
| `Shell.Process.PerformRedirections` | src/cmd.c:154-176 | the descriptors become the old ones with `RedirectionPlan` carried out |
| `Shell.Process.ShellCd` | src/cmd.c:181-191 | true exactly when `chdir` fails; the directory moves only on success |
| `Shell.Process.CompleteCdCommand` | src/cmd.c:193-198 | the state and `bool` result are those of the `cd` specification |
| `Shell.Process.AssignEnvironmentVariable` | src/cmd.c:250-264 | the result and environment are those of the assignment specification |
| `Shell.Process.ExecuteExternalCommand` | src/cmd.c:208-248 | the status and events are those of the external-command specification; the shell's state is untouched |
| `Shell.Process.ParseSimple` | src/cmd.c:271-302 | the status, state and events equal `EvalSimple` |
| `Shell.Process.RunChild` | src/cmd.c:320-343 | a child evaluates a subtree in a copy of the shell; its status and events are `Eval` of that copy, and the shell is unchanged |
| `Shell.Process.RunInParallel` | src/cmd.c:307-357 | the `bool` result and events equal `EvalParallel` |
| `Shell.Process.RunOnPipe` | src/cmd.c:362-457 | the `bool` result and events equal `EvalPipe` |
| `Shell.Process.ParseCommand` | src/cmd.c:462-502 | the status, new state and events equal `Eval` |

## Left out

- Process creation and reaping (`fork`, `waitpid`, pids) are not modelled. A forked child is a copy of the state. Whether a `fork` or `pipe` fails is an oracle answer per node and per call.
- The model does not show that the first child stays unreaped when the second `fork` fails.
- `Evaluator.EvalPipe`: the right program's outcome comes from the `run` oracle, which sees its path and invocation but not the data the left child wrote into the pipe, so the model does not relate the right child's status to the left subtree's output.
- Data flow through the pipe, and the order in which descriptors are closed (src/cmd.c:370-448), are left out. Only which end each child's stream is attached to is recorded.
- File contents, permissions, and the effects of `open`/`dup2`/`close`/`fflush` are not modelled. Only the stream and mode plan is.
- `DIE` aborts on a failed `open` or `dup2` are left out. The model assumes every `open` and `dup2` succeeds.
- How a started program behaves is an oracle answer given its path in the tree and what it is started with. Only normal exits are modelled. A child killed by a signal, and `WEXITSTATUS` on such a status, are not.
- The `waitpid` failure path (an uninitialised status) is not modelled.
- `get_word`, `get_argv`, the parser, and the definitions of `word_t`, `simple_command_t` and `command_t` are not part of this model. Word resolution and argv construction are oracle functions. `cd` without a parameter passes `None` to the `chdir` oracle in place of `get_word(NULL)`.
- The values of `SHELL_EXIT`, `IO_OUT_APPEND` and `IO_ERR_APPEND` (headers not part of this model) are parameters.
- `setenv` failure is an oracle answer. The name-validity rules of the C library are not modelled.
- `strcmp` on C strings is modelled as equality of character sequences.
- Memory management (`free`, the argv free loop) and the unused `level`/`father` parameters are left out.

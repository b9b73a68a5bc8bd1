/**
  The operator evaluator: `parse_command`, `parse_simple`, `run_in_parallel`,
  `run_on_pipe` and `execute_external_command` as functions of the command
  tree, the shell's state and the outcomes of the foreign calls.
*/
module Evaluator {
  import opened Wrappers
  import opened Commands
  import opened Host
  import opened Redirections
  import opened Builtins

  /** The statuses `parse_command` can return: the sentinel, `setenv`'s -1, or a byte. */
  predicate ValidStatus(k: Consts, n: int)
  {
    n == k.shellExit || n == -1 || 0 <= n < 256
  }

  /**
    `execute_external_command`: a failed `fork` yields 0. Otherwise the
    child carries out the redirections on its own copy of the descriptors
    and starts the program; the parent's state is untouched and its status
    is the low byte of what the child passed to `exit`.
  */
  function ExternalOutcome(s: SimpleCommand, at: Path, st: State, os: Oracle, k: Consts): Outcome
  {
    if os.forkFails(at, 0) then Outcome(0, st, [])
    else
      var inv := Invocation(os.getArgv(s, st.env), st.env, st.cwd,
                            ApplyPlan(st.fds, RedirectionPlan(s, st.env, os, k)));
      Outcome(LowByte(ExitArgument(os.run(at, inv))), st, [Spawn(at, inv)])
  }

  /** `parse_simple`: dispatch on the leaf's kind. */
  function EvalSimple(s: Option<SimpleCommand>, at: Path, st: State, os: Oracle, k: Consts): (r: Outcome)
    ensures ValidStatus(k, r.status)
    ensures Within(at, r.events)
  {
    match Classify(s)
    case NullCommand => Outcome(0, st, [])
    case ExitBuiltin => Outcome(k.shellExit, st, [])
    case CdBuiltin => CdOutcome(s.value, st, os, k)
    case Assignment => AssignOutcome(s.value, st, os)
    case External => ExternalOutcome(s.value, at, st, os, k)
  }

  /** Runs `c2` after `c1` in the shell's own process, from the state `c1` left. */
  function Then(r1: Outcome, c2: Command, at: Path, os: Oracle, k: Consts): (r: Outcome)
    requires Within(at + [First], r1.events)
    ensures ValidStatus(k, r.status)
    ensures Within(at, r.events)
    decreases Size(c2) + 1, 0
  {
    var r2 := Eval(c2, at + [Second], r1.state, os, k);
    Outcome(r2.status, r2.state, r1.events + r2.events)
  }

  /**
    `parse_command`: the node is visited, then its operator decides what
    runs. Sequential and conditional children run in the shell's process and
    see each other's state changes; parallel and pipe children run in forked
    copies.
  */
  function Eval(c: Command, at: Path, st: State, os: Oracle, k: Consts): (r: Outcome)
    ensures ValidStatus(k, r.status)
    ensures r.events != [] && r.events[0] == Visit(at)
    ensures Within(at, r.events)
    decreases Size(c), 3
  {
    var o :=
      match c
      case Leaf(s) => EvalSimple(s, at, st, os, k)
      case Node(op, c1, c2) =>
        (match op
         case Sequential => Then(Eval(c1, at + [First], st, os, k), c2, at, os, k)
         case Parallel => EvalParallel(c1, c2, at, st, os, k)
         case ConditionalNzero =>
           var r1 := Eval(c1, at + [First], st, os, k);
           if r1.status != 0 then Then(r1, c2, at, os, k) else r1
         case ConditionalZero =>
           var r1 := Eval(c1, at + [First], st, os, k);
           if r1.status == 0 then Then(r1, c2, at, os, k) else r1
         case Pipe => EvalPipe(c1, c2, at, st, os, k)
         case UnknownOp(_) => Outcome(k.shellExit, st, []));
    Outcome(o.status, o.state, [Visit(at)] + o.events)
  }

  /**
    `run_in_parallel`: two forked children evaluate the subtrees from copies
    of the shell's state; the `bool` result is 1 exactly when both forks
    succeed and both children exit with 0. A failed second fork returns 0
    while the first child has already run.
  */
  function EvalParallel(c1: Command, c2: Command, at: Path, st: State, os: Oracle, k: Consts): (r: Outcome)
    ensures r.status == 0 || r.status == 1
    ensures r.state == st
    ensures Within(at, r.events)
    decreases Size(c1) + Size(c2) + 1, 0
  {
    if os.forkFails(at, 0) then Outcome(0, st, [])
    else
      var r1 := Eval(c1, at + [First], st, os, k);
      if os.forkFails(at, 1) then Outcome(0, st, r1.events)
      else
        var r2 := Eval(c2, at + [Second], st, os, k);
        var both := LowByte(r1.status) == 0 && LowByte(r2.status) == 0;
        Outcome(if both then 1 else 0, st, r1.events + r2.events)
  }

  /**
    `run_on_pipe`: the left child writes its standard output into the pipe,
    the right child reads its standard input from it. The `bool` result is 0
    when `pipe` or a `fork` fails, otherwise 1 exactly when the right child's
    status is non-zero; the left child's status is never looked at.
  */
  function EvalPipe(c1: Command, c2: Command, at: Path, st: State, os: Oracle, k: Consts): (r: Outcome)
    ensures r.status == 0 || r.status == 1
    ensures r.state == st
    ensures Within(at, r.events)
    decreases Size(c1) + Size(c2) + 1, 0
  {
    if os.pipeFails(at) || os.forkFails(at, 0) then Outcome(0, st, [])
    else
      var r1 := Eval(c1, at + [First], st.(fds := st.fds.(stdout := PipeWrite)), os, k);
      if os.forkFails(at, 1) then Outcome(0, st, r1.events)
      else
        var r2 := Eval(c2, at + [Second], st.(fds := st.fds.(stdin := PipeRead)), os, k);
        Outcome(if LowByte(r2.status) != 0 then 1 else 0, st, r1.events + r2.events)
  }
}

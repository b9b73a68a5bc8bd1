/**
  What `parse_command` and `parse_simple` promise, stated over the
  evaluator of module Evaluator.
*/
module Properties {
  import opened Wrappers
  import opened Commands
  import opened Host
  import opened Redirections
  import opened Builtins
  import opened Evaluator

  /** Nothing evaluated under `cmd1` of a node is `cmd2` of that node. */
  lemma SecondNotVisitedByFirst(at: Path, events: seq<Event>)
    requires Within(at + [First], events)
    ensures Visit(at + [Second]) !in events
    ensures Visit(at + [Second]) !in [Visit(at)] + events
  {
    forall e | e in events
      ensures e != Visit(at + [Second])
    {
      assert at + [First] <= e.at;
      assert e.at[|at|] == First;
    }
  }

  /**
    Sequential: the left subtree runs, its status is dropped, and the right
    subtree runs from the state the left one left; the node's status and
    state are the right subtree's.
  */
  lemma SequentialReturnsRight(c1: Command, c2: Command, at: Path, st: State, os: Oracle, k: Consts)
    ensures
      var r := Eval(Node(Sequential, c1, c2), at, st, os, k);
      var r1 := Eval(c1, at + [First], st, os, k);
      var r2 := Eval(c2, at + [Second], r1.state, os, k);
      && r.status == r2.status
      && r.state == r2.state
      && r.events == [Visit(at)] + (r1.events + r2.events)
  {
  }

  /** `exit` does not end a sequence: the sentinel it returns is replaced by the right subtree's status. */
  lemma ExitDoesNotStopSequence(s: SimpleCommand, c2: Command, at: Path, st: State, os: Oracle, k: Consts)
    requires Classify(Some(s)) == ExitBuiltin
    ensures Eval(Node(Sequential, Leaf(Some(s)), c2), at, st, os, k).status
         == Eval(c2, at + [Second], st, os, k).status
  {
  }

  /**
    `OP_CONDITIONAL_NZERO`: the right subtree is evaluated if and only if the
    left status is non-zero; otherwise the left outcome stands.
  */
  lemma ConditionalNzeroRunsRightIffLeftFails(c1: Command, c2: Command, at: Path, st: State, os: Oracle, k: Consts)
    ensures
      var r := Eval(Node(ConditionalNzero, c1, c2), at, st, os, k);
      var r1 := Eval(c1, at + [First], st, os, k);
      var r2 := Eval(c2, at + [Second], r1.state, os, k);
      && (Visit(at + [Second]) in r.events <==> r1.status != 0)
      && (r1.status == 0 ==> r.status == r1.status && r.state == r1.state)
      && (r1.status != 0 ==> r.status == r2.status && r.state == r2.state)
  {
    var r1 := Eval(c1, at + [First], st, os, k);
    SecondNotVisitedByFirst(at, r1.events);
  }

  /**
    `OP_CONDITIONAL_ZERO`: the right subtree is evaluated if and only if the
    left status is 0; otherwise the left outcome stands.
  */
  lemma ConditionalZeroRunsRightIffLeftSucceeds(c1: Command, c2: Command, at: Path, st: State, os: Oracle, k: Consts)
    ensures
      var r := Eval(Node(ConditionalZero, c1, c2), at, st, os, k);
      var r1 := Eval(c1, at + [First], st, os, k);
      var r2 := Eval(c2, at + [Second], r1.state, os, k);
      && (Visit(at + [Second]) in r.events <==> r1.status == 0)
      && (r1.status != 0 ==> r.status == r1.status && r.state == r1.state)
      && (r1.status == 0 ==> r.status == r2.status && r.state == r2.state)
  {
    var r1 := Eval(c1, at + [First], st, os, k);
    SecondNotVisitedByFirst(at, r1.events);
  }

  /**
    Parallel: 1 exactly when both forks succeed and both children exit with
    0; both children start from the shell's state, and the shell's state is
    unchanged.
  */
  lemma ParallelSucceedsIffBothExitZero(c1: Command, c2: Command, at: Path, st: State, os: Oracle, k: Consts)
    ensures
      var r := Eval(Node(Parallel, c1, c2), at, st, os, k);
      var r1 := Eval(c1, at + [First], st, os, k);
      var r2 := Eval(c2, at + [Second], st, os, k);
      && r.state == st
      && (r.status == 0 || r.status == 1)
      && (r.status == 1 <==>
            !os.forkFails(at, 0) && !os.forkFails(at, 1) && LowByte(r1.status) == 0 && LowByte(r2.status) == 0)
      && (!os.forkFails(at, 0) && !os.forkFails(at, 1) ==> r.events == [Visit(at)] + (r1.events + r2.events))
  {
  }

  /**
    Pipe: 1 exactly when the pipe and both forks succeed and the right child
    exits non-zero; the right child reads from the pipe, the left writes to
    it, and the shell's state is unchanged.
  */
  lemma PipeReportsRightFailure(c1: Command, c2: Command, at: Path, st: State, os: Oracle, k: Consts)
    ensures
      var r := Eval(Node(Pipe, c1, c2), at, st, os, k);
      var r1 := Eval(c1, at + [First], st.(fds := st.fds.(stdout := PipeWrite)), os, k);
      var r2 := Eval(c2, at + [Second], st.(fds := st.fds.(stdin := PipeRead)), os, k);
      && r.state == st
      && (r.status == 0 || r.status == 1)
      && (r.status == 1 <==>
            !os.pipeFails(at) && !os.forkFails(at, 0) && !os.forkFails(at, 1) && LowByte(r2.status) != 0)
      && (!os.pipeFails(at) && !os.forkFails(at, 0) && !os.forkFails(at, 1) ==>
            r.events == [Visit(at)] + (r1.events + r2.events))
  {
  }

  /** An operator `parse_command` does not know yields the sentinel and runs nothing. */
  lemma UnknownOperatorExits(code: int, c1: Command, c2: Command, at: Path, st: State, os: Oracle, k: Consts)
    ensures Eval(Node(UnknownOp(code), c1, c2), at, st, os, k) == Outcome(k.shellExit, st, [Visit(at)])
  {
  }

  /** A NULL simple command yields 0 and does nothing. */
  lemma NullCommandSucceeds(at: Path, st: State, os: Oracle, k: Consts)
    ensures Eval(Leaf(None), at, st, os, k) == Outcome(0, st, [Visit(at)])
  {
  }

  /** `exit` and `quit` yield the sentinel, with no redirection, no program started and no state change. */
  lemma ExitYieldsSentinel(s: SimpleCommand, at: Path, st: State, os: Oracle, k: Consts)
    requires s.verb.head.text == "exit" || s.verb.head.text == "quit"
    ensures Eval(Leaf(Some(s)), at, st, os, k) == Outcome(k.shellExit, st, [Visit(at)])
  {
  }

  /**
    `cd` redirects the shell's own streams, then yields 0 and moves to the
    new directory when `chdir` on the first parameter word succeeds, and
    yields 1 with the directory unchanged when it fails.
  */
  lemma CdReportsChdir(s: SimpleCommand, at: Path, st: State, os: Oracle, k: Consts)
    requires s.verb.head.text == "cd"
    ensures
      var r := Eval(Leaf(Some(s)), at, st, os, k);
      var moved := os.chdir(st.cwd, CdArgument(s, st.env, os));
      && r.state.fds == ApplyPlan(st.fds, RedirectionPlan(s, st.env, os, k))
      && r.state.env == st.env
      && (r.status == 1 <==> moved.None?)
      && (r.status == 0 <==> moved.Some?)
      && r.state.cwd == (if moved.Some? then moved.value else st.cwd)
      && r.events == [Visit(at)]
  {
  }

  /** `cd` looks only at its first parameter word. */
  lemma CdIgnoresFurtherWords(s: SimpleCommand, extra: seq<Word>, at: Path, st: State, os: Oracle, k: Consts)
    requires s.verb.head.text == "cd" && s.params != []
    ensures Eval(Leaf(Some(s.(params := s.params + extra))), at, st, os, k) == Eval(Leaf(Some(s)), at, st, os, k)
  {
    assert (s.params + extra)[0] == s.params[0];
  }

  /**
    Assignment: malformed syntax yields 0 and changes nothing; a failing
    `setenv` yields -1 and changes nothing; otherwise `name := value` is set,
    overwriting, and no other variable, the directory or the streams change.
  */
  lemma AssignmentSetsOneVariable(s: SimpleCommand, at: Path, st: State, os: Oracle, k: Consts)
    requires Classify(Some(s)) == Assignment
    ensures
      var r := Eval(Leaf(Some(s)), at, st, os, k);
      && r.events == [Visit(at)]
      && (!WellFormedAssignment(s) ==> r.status == 0 && r.state == st)
      && (WellFormedAssignment(s) ==>
            var name := s.verb.head.text;
            var value := AssignedValue(s, st.env, os);
            && (os.setenvFails(name, value) ==> r.status == -1 && r.state == st)
            && (!os.setenvFails(name, value) ==>
                  && r.status == 0
                  && name in r.state.env && r.state.env[name] == value
                  && r.state.env.Keys == st.env.Keys + {name}
                  && (forall n | n in st.env && n != name :: r.state.env[n] == st.env[n])
                  && r.state.cwd == st.cwd && r.state.fds == st.fds))
  {
  }

  /**
    An external command runs in a forked child: the shell's state is
    unchanged; a failed fork yields 0 and starts nothing; otherwise the
    program sees the shell's environment and directory and the redirected
    streams, and the status is the low byte of what the child exits with
    (0 when `execvp` fails).
  */
  lemma ExternalRunsInChild(s: SimpleCommand, at: Path, st: State, os: Oracle, k: Consts)
    requires Classify(Some(s)) == External
    ensures
      var r := Eval(Leaf(Some(s)), at, st, os, k);
      var inv := Invocation(os.getArgv(s, st.env), st.env, st.cwd,
                            ApplyPlan(st.fds, RedirectionPlan(s, st.env, os, k)));
      && r.state == st
      && (os.forkFails(at, 0) ==> r.status == 0 && r.events == [Visit(at)])
      && (!os.forkFails(at, 0) ==>
            && r.events == [Visit(at), Spawn(at, inv)]
            && (os.run(at, inv).ExecFailed? ==> r.status == 0)
            && (os.run(at, inv).Exited? ==> r.status == LowByte(os.run(at, inv).code))
            && (os.run(at, inv).Exited? && 0 <= os.run(at, inv).code < 256 ==> r.status == os.run(at, inv).code))
  {
  }

  /**
    Only an assignment run in the shell's own process changes the
    environment: assignments in forked children never reach the shell.
  */
  lemma {:induction false} OnlyAssignmentChangesEnvironment(c: Command, at: Path, st: State, os: Oracle, k: Consts)
    requires forall s | s in ShellLeaves(c) :: Classify(Some(s)) != Assignment
    ensures Eval(c, at, st, os, k).state.env == st.env
    decreases c
  {
    match c
    case Leaf(s) =>
    case Node(op, c1, c2) =>
      if op.Sequential? || op.ConditionalNzero? || op.ConditionalZero? {
        OnlyAssignmentChangesEnvironment(c1, at + [First], st, os, k);
        var r1 := Eval(c1, at + [First], st, os, k);
        OnlyAssignmentChangesEnvironment(c2, at + [Second], r1.state, os, k);
      }
  }

  /**
    Only a `cd` run in the shell's own process changes the working directory
    or the shell's standard streams.
  */
  lemma {:induction false} OnlyCdChangesDirectoryAndStreams(c: Command, at: Path, st: State, os: Oracle, k: Consts)
    requires forall s | s in ShellLeaves(c) :: Classify(Some(s)) != CdBuiltin
    ensures Eval(c, at, st, os, k).state.cwd == st.cwd
    ensures Eval(c, at, st, os, k).state.fds == st.fds
    decreases c
  {
    match c
    case Leaf(s) =>
    case Node(op, c1, c2) =>
      if op.Sequential? || op.ConditionalNzero? || op.ConditionalZero? {
        OnlyCdChangesDirectoryAndStreams(c1, at + [First], st, os, k);
        var r1 := Eval(c1, at + [First], st, os, k);
        OnlyCdChangesDirectoryAndStreams(c2, at + [Second], r1.state, os, k);
      }
  }

  /** A tree none of whose leaves is an external command starts no program, in any process. */
  lemma {:induction false} NoProgramWithoutExternalLeaf(c: Command, at: Path, st: State, os: Oracle, k: Consts)
    requires forall s | s in Leaves(c) :: Classify(Some(s)) != External
    ensures forall e | e in Eval(c, at, st, os, k).events :: e.Visit?
    decreases c
  {
    match c
    case Leaf(s) =>
    case Node(op, c1, c2) =>
      var stLeft := if op.Pipe? then st.(fds := st.fds.(stdout := PipeWrite)) else st;
      NoProgramWithoutExternalLeaf(c1, at + [First], stLeft, os, k);
      var r1 := Eval(c1, at + [First], stLeft, os, k);
      var stRight :=
        if op.Pipe? then st.(fds := st.fds.(stdin := PipeRead))
        else if op.Parallel? then st
        else r1.state;
      NoProgramWithoutExternalLeaf(c2, at + [Second], stRight, os, k);
  }

  /** A variable assigned before a program in a sequence is in the environment the program starts with. */
  lemma AssignmentVisibleToLaterProgram(a: SimpleCommand, x: SimpleCommand, at: Path, st: State, os: Oracle, k: Consts)
    requires Classify(Some(a)) == Assignment && WellFormedAssignment(a)
    requires !os.setenvFails(a.verb.head.text, AssignedValue(a, st.env, os))
    requires Classify(Some(x)) == External && !os.forkFails(at + [Second], 0)
    ensures
      var r := Eval(Node(Sequential, Leaf(Some(a)), Leaf(Some(x))), at, st, os, k);
      exists inv :: Spawn(at + [Second], inv) in r.events
                 && inv.env == st.env[a.verb.head.text := AssignedValue(a, st.env, os)]
  {
    var r1 := Eval(Leaf(Some(a)), at + [First], st, os, k);
    var r2 := Eval(Leaf(Some(x)), at + [Second], r1.state, os, k);
    var inv := Invocation(os.getArgv(x, r1.state.env), r1.state.env, r1.state.cwd,
                          ApplyPlan(r1.state.fds, RedirectionPlan(x, r1.state.env, os, k)));
    assert r2.events[1] == Spawn(at + [Second], inv);
  }

  /** A variable assigned in one branch of a parallel node is not seen by the program of the other branch. */
  lemma ParallelSiblingDoesNotSeeAssignment(a: SimpleCommand, x: SimpleCommand, at: Path, st: State, os: Oracle, k: Consts)
    requires Classify(Some(a)) == Assignment
    requires Classify(Some(x)) == External
    requires !os.forkFails(at, 0) && !os.forkFails(at, 1) && !os.forkFails(at + [Second], 0)
    ensures
      var r := Eval(Node(Parallel, Leaf(Some(a)), Leaf(Some(x))), at, st, os, k);
      forall e | e in r.events && e.Spawn? :: e.inv.env == st.env
  {
    var r1 := Eval(Leaf(Some(a)), at + [First], st, os, k);
    var r2 := Eval(Leaf(Some(x)), at + [Second], st, os, k);
    assert r1.events == [Visit(at + [First])];
    assert forall e | e in r2.events && e.Spawn? :: e.inv.env == st.env;
  }
}

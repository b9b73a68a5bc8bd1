/**
  The builtins of `parse_simple`: `exit`/`quit`, `cd` and environment
  variable assignment, as changes to the shell's own state.
*/
module Builtins {
  import opened Wrappers
  import opened Commands
  import opened Host
  import opened Redirections

  /** What `parse_simple` does with a leaf; the first test that matches wins. */
  datatype Kind = NullCommand | ExitBuiltin | CdBuiltin | Assignment | External

  /**
    `parse_simple`'s tests in their order. Verbs are compared on the raw text
    of their first part, before any expansion.
  */
  function Classify(s: Option<SimpleCommand>): Kind
  {
    if s.None? then NullCommand
    else if s.value.verb.head.text == "exit" then ExitBuiltin
    else if s.value.verb.head.text == "quit" then ExitBuiltin
    else if s.value.verb.head.text == "cd" then CdBuiltin
    else if s.value.verb.tail != [] then Assignment
    else External
  }

  /** The argument `shell_cd` passes to `chdir`: the first parameter word, resolved. */
  function CdArgument(s: SimpleCommand, env: Env, os: Oracle): Option<string>
  {
    if s.params == [] then None else Some(Resolve(s.params[0], env, os))
  }

  /**
    `complete_cd_command`: the redirections are carried out on the shell's
    own descriptors, then `chdir`; the `bool` result is 1 when `chdir`
    returned -1 and 0 when it returned 0.
  */
  function CdOutcome(s: SimpleCommand, st: State, os: Oracle, k: Consts): Outcome
  {
    var fds := ApplyPlan(st.fds, RedirectionPlan(s, st.env, os, k));
    var moved := os.chdir(st.cwd, CdArgument(s, st.env, os));
    if moved.None? then Outcome(1, st.(fds := fds), [])
    else Outcome(0, st.(fds := fds, cwd := moved.value), [])
  }

  /** The assignment is well formed: the verb's second part is exactly "=" and a value part follows. */
  predicate WellFormedAssignment(s: SimpleCommand)
  {
    |s.verb.tail| >= 2 && s.verb.tail[0].text == "="
  }

  /** The value assigned: the parts after "=", resolved. */
  function AssignedValue(s: SimpleCommand, env: Env, os: Oracle): string
    requires WellFormedAssignment(s)
  {
    os.getWord(s.verb.tail[1..], env)
  }

  /**
    `assign_environment_variable`: a malformed assignment yields 0 and
    changes nothing; otherwise the result is `setenv`'s (0 or -1) and on
    success the variable named by the verb's first part is overwritten.
  */
  function AssignOutcome(s: SimpleCommand, st: State, os: Oracle): Outcome
    requires s.verb.tail != []
  {
    if !WellFormedAssignment(s) then Outcome(0, st, [])
    else
      var name := s.verb.head.text;
      var value := AssignedValue(s, st.env, os);
      if os.setenvFails(name, value) then Outcome(-1, st, [])
      else Outcome(0, st.(env := st.env[name := value]), [])
  }
}

/**
  The redirection planner: which standard streams of a simple command are
  redirected, to which file, and whether the file is opened for appending
  or truncated (`perform_redirections` and the `redirect_*` helpers).
*/
module Redirections {
  import opened Wrappers
  import opened Commands
  import opened Host

  datatype Target = Target(path: string, mode: Mode)

  /** For each standard stream, the file it is redirected to, if any. */
  datatype Plan = Plan(stdin: Option<Target>, stdout: Option<Target>, stderr: Option<Target>)

  /** The mode `redirect_output` opens with when only the output is redirected. */
  function OutputMode(k: Consts, ioFlags: int): Mode
  {
    if ioFlags == k.ioOutAppend then Append else Truncate
  }

  /** The mode `redirect_error` opens with when only the error stream is redirected. */
  function ErrorMode(k: Consts, ioFlags: int): Mode
  {
    if ioFlags == k.ioErrAppend then Append else Truncate
  }

  function Resolve(w: Word, env: Env, os: Oracle): string
  {
    os.getWord(w.Parts(), env)
  }

  /**
    The plan `perform_redirections` carries out. Input is independent of the
    other two streams; output alone and error alone follow `io_flags`
    (compared for equality, not as bits); output and error together always
    give append for output and truncate for error.
  */
  function RedirectionPlan(s: SimpleCommand, env: Env, os: Oracle, k: Consts): (p: Plan)
    ensures p.stdin.Some? <==> s.inFile.Some?
    ensures p.stdout.Some? <==> s.outFile.Some?
    ensures p.stderr.Some? <==> s.errFile.Some?
    ensures s.inFile.Some? ==> p.stdin.value == Target(Resolve(s.inFile.value, env, os), ReadOnly)
    ensures s.outFile.Some? ==> p.stdout.value.path == Resolve(s.outFile.value, env, os)
    ensures s.errFile.Some? ==> p.stderr.value.path == Resolve(s.errFile.value, env, os)
    ensures s.outFile.Some? && s.errFile.None? ==>
      (p.stdout.value.mode == Append <==> s.ioFlags == k.ioOutAppend) && p.stdout.value.mode != ReadOnly
    ensures s.outFile.None? && s.errFile.Some? ==>
      (p.stderr.value.mode == Append <==> s.ioFlags == k.ioErrAppend) && p.stderr.value.mode != ReadOnly
    ensures s.outFile.Some? && s.errFile.Some? ==>
      p.stdout.value.mode == Append && p.stderr.value.mode == Truncate
  {
    var input := if s.inFile.Some? then Some(Target(Resolve(s.inFile.value, env, os), ReadOnly)) else None;
    if s.outFile.Some? then
      if s.errFile.None? then
        Plan(input, Some(Target(Resolve(s.outFile.value, env, os), OutputMode(k, s.ioFlags))), None)
      else
        Plan(input, Some(Target(Resolve(s.outFile.value, env, os), Append)),
                    Some(Target(Resolve(s.errFile.value, env, os), Truncate)))
    else if s.errFile.Some? then
      Plan(input, None, Some(Target(Resolve(s.errFile.value, env, os), ErrorMode(k, s.ioFlags))))
    else
      Plan(input, None, None)
  }

  function Redirect(current: Stream, t: Option<Target>): Stream
  {
    if t.Some? then File(t.value.path, t.value.mode) else current
  }

  /** The descriptor table after the plan has been carried out. */
  function ApplyPlan(fds: Fds, p: Plan): Fds
  {
    Fds(Redirect(fds.stdin, p.stdin), Redirect(fds.stdout, p.stdout), Redirect(fds.stderr, p.stderr))
  }

  /** A command without targets redirects nothing. */
  lemma NoTargetsNoRedirection(s: SimpleCommand, env: Env, os: Oracle, k: Consts, fds: Fds)
    requires s.inFile.None? && s.outFile.None? && s.errFile.None?
    ensures ApplyPlan(fds, RedirectionPlan(s, env, os, k)) == fds
  {
  }
}

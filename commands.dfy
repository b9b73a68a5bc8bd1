/**
  The command tree the evaluator walks. The parser that builds it, and the
  headers that declare `word_t`, `simple_command_t` and `command_t`, are not
  part of this model; the datatypes below keep exactly the fields that the
  evaluator in src/cmd.c reads.
*/
module Commands {
  import opened Wrappers

  /** One part of a word: literal text, or a variable name when `expand` is set. */
  datatype Part = Part(text: string, expand: bool)

  /**
    A word: its first part (`string` of the first `word_t`) and the parts
    chained after it through `next_part`.
  */
  datatype Word = Word(head: Part, tail: seq<Part>)
  {
    function Parts(): seq<Part>
    {
      [head] + tail
    }
  }

  /** A leaf of the tree: the verb, the parameter words, the three redirection targets and `io_flags`. */
  datatype SimpleCommand = SimpleCommand(
    verb: Word,
    params: seq<Word>,
    inFile: Option<Word>,
    outFile: Option<Word>,
    errFile: Option<Word>,
    ioFlags: int)

  /** The operators of an inner node; `UnknownOp` stands for any other value of the enum. */
  datatype Op =
    | Sequential
    | Parallel
    | ConditionalNzero
    | ConditionalZero
    | Pipe
    | UnknownOp(code: int)

  /** `OP_NONE` nodes are leaves; a leaf whose simple command is NULL is `Leaf(None)`. */
  datatype Command =
    | Leaf(scmd: Option<SimpleCommand>)
    | Node(op: Op, cmd1: Command, cmd2: Command)

  /** Which child of an inner node: `cmd1` or `cmd2`. */
  datatype Side = First | Second

  /** The position of a node in the tree, from the root. */
  type Path = seq<Side>

  function Size(c: Command): nat
  {
    match c
    case Leaf(_) => 1
    case Node(_, c1, c2) => 1 + Size(c1) + Size(c2)
  }

  /** Every simple command in the tree, including those run by forked children. */
  function Leaves(c: Command): set<SimpleCommand>
  {
    match c
    case Leaf(s) => if s.Some? then {s.value} else {}
    case Node(_, c1, c2) => Leaves(c1) + Leaves(c2)
  }

  /**
    The simple commands the shell runs in its own process: those reached
    through sequential and conditional operators only. Parallel and pipe
    children run in forked processes; an unknown operator runs nothing.
  */
  function ShellLeaves(c: Command): set<SimpleCommand>
  {
    match c
    case Leaf(s) => if s.Some? then {s.value} else {}
    case Node(op, c1, c2) =>
      if op.Sequential? || op.ConditionalNzero? || op.ConditionalZero?
      then ShellLeaves(c1) + ShellLeaves(c2)
      else {}
  }

  /**
    Constants defined in headers that are not part of this model:
    `SHELL_EXIT` (cmd.h) and the `IO_OUT_APPEND` / `IO_ERR_APPEND` flag values.
  */
  datatype Consts = Consts(shellExit: int, ioOutAppend: int, ioErrAppend: int)
}

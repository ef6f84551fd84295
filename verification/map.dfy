/** `map`: a Map term over optional sequences and a function, the function last. */
module MapCmd {
  import opened Wrappers
  import opened Json
  import opened Reql

  /** The three `MapArg` implementations: a function alone, one sequence and a function, several sequences and a function. */
  datatype MapArg =
    | FuncOnly(func: Command)
    | WithSequence(sequence: Command, func: Command)
    | WithSequences(sequences: seq<Command>, func: Command)

  /** `into_map_opts`: the sequences as an optional bundle, and the function. */
  function IntoMapOpts(a: MapArg): (r: (Option<CmdOpts>, Command))
    ensures r.1 == a.func
    ensures r.0.None? <==> a.FuncOnly?
    ensures a.WithSequence? ==> r.0 == Some(Single(a.sequence))
    ensures a.WithSequences? ==> r.0 == Some(Many(a.sequences))
  {
    match a
    case FuncOnly(f) => (None, f)
    case WithSequence(s, f) => (Some(Single(s)), f)
    case WithSequences(ss, f) => (Some(Many(ss)), f)
  }

  /** The sequences an argument names, in order. */
  function Sequences(a: MapArg): seq<Command> {
    match a
    case FuncOnly(_) => []
    case WithSequence(s, _) => [s]
    case WithSequences(ss, _) => ss
  }

  /**
   * `new(args)`: the sequences in order, then the function as the last
   * argument; never any options.
   */
  function New(a: MapArg): (c: TermCmd)
    ensures c.typ == Map && c.opts == None
    ensures c.args == Sequences(a) + [a.func]
    ensures c.args[|c.args| - 1] == a.func
  {
    var (bundle, func) := IntoMapOpts(a);
    var base := Reql.New(Map);
    var command :=
      if bundle.Some? then (AddToCmdAppends(bundle.value, base); AddToCmd(bundle.value, base))
      else base;
    WithArg(command, func)
  }
}

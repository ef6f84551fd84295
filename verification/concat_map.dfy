/** `concat_map`: a ConcatMap term over one function. */
module ConcatMapCmd {
  import opened Wrappers
  import opened Json
  import opened Reql

  datatype ConcatMapBuilder = ConcatMapBuilder(command: TermCmd)

  /** `ConcatMapBuilder::new(func)`: exactly one argument, the function. */
  function New(func: TermCmd): (b: ConcatMapBuilder)
    ensures b.command.args == [func]
    ensures Serialise(b.command) == JArr([JInt(40), JArr([Serialise(func)])])
  {
    var command := WithArg(Reql.New(ConcatMap), func);
    WireForm(command, [Serialise(func)]);
    ConcatMapBuilder(command)
  }

  /** `_with_parent`: the parent becomes argument 0 and can be split off again. */
  function WithParent(b: ConcatMapBuilder, parent: Command): (r: ConcatMapBuilder)
    ensures ParentOf(r.command) == Some(parent) && WithoutParent(r.command) == b.command
  {
    WithParentInverse(b.command, parent);
    ConcatMapBuilder(Reql.WithParent(b.command, parent))
  }

  /** `get_parent`, which is also `Into<Command>`. */
  function GetParent(b: ConcatMapBuilder): (r: Command)
    ensures r == b.command
  {
    b.command
  }

  /** `seq.concat_map(f)` is `[40, [seq, f]]`, with no options object. */
  lemma ChainedWireForm(parent: Command, func: TermCmd)
    ensures Serialise(GetParent(WithParent(New(func), parent)))
      == JArr([JInt(40), JArr([Serialise(parent), Serialise(func)])])
  {
    var c := GetParent(WithParent(New(func), parent));
    assert c.args == [parent, func];
    WireForm(c, [Serialise(parent), Serialise(func)]);
  }
}

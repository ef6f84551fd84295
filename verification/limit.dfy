/** `limit`: a Limit term over a step count. */
module LimitCmd {
  import opened Wrappers
  import opened Json
  import opened Reql

  /** Rust's `usize` on a 64-bit target. */
  type Usize = n: int | 0 <= n < 0x1_0000_0000_0000_0000

  datatype LimitBuilder = LimitBuilder(command: TermCmd)

  /** `LimitBuilder::new(step)`: one argument, the step as a JSON number, never negative. */
  function New(step: Usize): (b: LimitBuilder)
    ensures b.command.args == [FromJson(JInt(step))]
    ensures Serialise(b.command) == JArr([JInt(71), JArr([JInt(step)])])
    ensures b.command.args[0].value.i >= 0
  {
    var command := WithArg(Reql.New(Limit), FromJson(JInt(step)));
    WireForm(command, [JInt(step)]);
    LimitBuilder(command)
  }

  /** `_with_parent`: the parent becomes argument 0 and can be split off again. */
  function WithParent(b: LimitBuilder, parent: Command): (r: LimitBuilder)
    ensures ParentOf(r.command) == Some(parent) && WithoutParent(r.command) == b.command
  {
    WithParentInverse(b.command, parent);
    LimitBuilder(Reql.WithParent(b.command, parent))
  }

  /** `get_parent`, which is also `Into<Command>`. */
  function GetParent(b: LimitBuilder): (r: Command)
    ensures r == b.command
  {
    b.command
  }

  /** `seq.limit(n)` is `[71, [seq, n]]`, with no options object. */
  lemma ChainedWireForm(parent: Command, step: Usize)
    ensures Serialise(GetParent(WithParent(New(step), parent)))
      == JArr([JInt(71), JArr([Serialise(parent), JInt(step)])])
  {
    var c := GetParent(WithParent(New(step), parent));
    assert c.args == [parent, FromJson(JInt(step))];
    WireForm(c, [Serialise(parent), JInt(step)]);
  }
}

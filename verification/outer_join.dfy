/** `outer_join`: an OuterJoin term over the other table and a predicate function. */
module OuterJoinCmd {
  import opened Wrappers
  import opened Json
  import opened Reql

  datatype OuterJoinBuilder = OuterJoinBuilder(command: TermCmd)

  /** `OuterJoinBuilder::new(other_table, func)`: arguments `[other_table, func]`. */
  function New(otherTable: TermCmd, func: TermCmd): (b: OuterJoinBuilder)
    ensures b.command.args == [otherTable, func]
    ensures Serialise(b.command) == JArr([JInt(49), JArr([Serialise(otherTable), Serialise(func)])])
  {
    var command := WithArg(WithArg(Reql.New(OuterJoin), otherTable), func);
    WireForm(command, [Serialise(otherTable), Serialise(func)]);
    OuterJoinBuilder(command)
  }

  /** `make_query`: the term as built, with no options. */
  function MakeQuery(b: OuterJoinBuilder): (r: Command)
    ensures r == GetParent(b)
  {
    b.command
  }

  /** `_with_parent`: the parent becomes argument 0 and can be split off again. */
  function WithParent(b: OuterJoinBuilder, parent: Command): (r: OuterJoinBuilder)
    ensures ParentOf(r.command) == Some(parent) && WithoutParent(r.command) == b.command
  {
    WithParentInverse(b.command, parent);
    OuterJoinBuilder(Reql.WithParent(b.command, parent))
  }

  /** `get_parent`: the term unchanged. */
  function GetParent(b: OuterJoinBuilder): (r: Command)
    ensures r == b.command
  {
    b.command
  }

  /**
   * `left.outer_join(right, f)` sends `[49, [left, right, f]]`: the chained
   * table first, no options object.
   */
  lemma ChainedWireForm(parent: Command, otherTable: TermCmd, func: TermCmd)
    ensures var q := MakeQuery(WithParent(New(otherTable, func), parent));
      q.args == [parent, otherTable, func]
      && Serialise(q) == JArr([JInt(49), JArr([Serialise(parent), Serialise(otherTable), Serialise(func)])])
  {
    var q := MakeQuery(WithParent(New(otherTable, func), parent));
    assert q.args == [parent, otherTable, func];
    WireForm(q, [Serialise(parent), Serialise(otherTable), Serialise(func)]);
  }
}

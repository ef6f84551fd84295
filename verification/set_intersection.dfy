/** `set_intersection`: a SetIntersection term whose argument is the whole value list. */
module SetIntersectionCmd {
  import opened Wrappers
  import opened Json
  import opened Reql

  datatype SetIntersectionBuilder = SetIntersectionBuilder(command: TermCmd)

  /**
   * `SetIntersectionBuilder::new(values)`: the slice becomes ONE literal
   * argument (a JSON array), not one argument per element.
   */
  function New(values: seq<Json>): (b: SetIntersectionBuilder)
    ensures |b.command.args| == 1 && b.command.args[0] == FromJson(JArr(values))
    ensures Serialise(b.command) == JArr([JInt(89), JArr([EncodeDatum(JArr(values))])])
  {
    var command := WithArg(Reql.New(SetIntersection), FromJson(JArr(values)));
    WireForm(command, [EncodeDatum(JArr(values))]);
    SetIntersectionBuilder(command)
  }

  /** `_with_parent`: the parent becomes argument 0 and can be split off again. */
  function WithParent(b: SetIntersectionBuilder, parent: Command): (r: SetIntersectionBuilder)
    ensures ParentOf(r.command) == Some(parent) && WithoutParent(r.command) == b.command
  {
    WithParentInverse(b.command, parent);
    SetIntersectionBuilder(Reql.WithParent(b.command, parent))
  }

  /** `get_parent`, which is also `Into<Command>`. */
  function GetParent(b: SetIntersectionBuilder): (r: Command)
    ensures r == b.command
  {
    b.command
  }

  /** Whatever the chain, the term carries no options and the values stay one argument after the parent. */
  lemma ChainedShape(parent: Command, values: seq<Json>)
    ensures var c := GetParent(WithParent(New(values), parent));
      c.opts == None && c.args == [parent, FromJson(JArr(values))]
  {
  }
}

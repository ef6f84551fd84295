/** `polygon_sub`: a PolygonSub term over the inner polygon's stored term. */
module PolygonSubCmd {
  import opened Wrappers
  import opened Json
  import opened Reql

  /** The part of a polygon value this builder reads: the term it was built from, if any. */
  datatype Polygon = Polygon(command: Option<Command>)

  datatype PolygonSubBuilder = PolygonSubBuilder(command: TermCmd)

  /**
   * `PolygonSubBuilder::new(polygon)`: the polygon's stored term is the one
   * argument. The source unwraps it, so a polygon without one panics.
   */
  function New(polygon: Polygon): (b: PolygonSubBuilder)
    requires polygon.command.Some?
    ensures b.command.args == [polygon.command.value]
    ensures Serialise(b.command) == JArr([JInt(171), JArr([Serialise(polygon.command.value)])])
  {
    var command := WithArg(Reql.New(PolygonSub), polygon.command.value);
    WireForm(command, [Serialise(polygon.command.value)]);
    PolygonSubBuilder(command)
  }

  /** `_with_parent`: the parent becomes argument 0 and can be split off again. */
  function WithParent(b: PolygonSubBuilder, parent: Command): (r: PolygonSubBuilder)
    ensures ParentOf(r.command) == Some(parent) && WithoutParent(r.command) == b.command
  {
    WithParentInverse(b.command, parent);
    PolygonSubBuilder(Reql.WithParent(b.command, parent))
  }

  /** `get_parent`, which is also `Into<Command>`. */
  function GetParent(b: PolygonSubBuilder): (r: Command)
    ensures r == b.command
  {
    b.command
  }

  /** `outer.polygon_sub(inner)` is `[171, [outer, inner]]`, with no options object. */
  lemma ChainedWireForm(outer: Command, inner: Polygon)
    requires inner.command.Some?
    ensures Serialise(GetParent(WithParent(New(inner), outer)))
      == JArr([JInt(171), JArr([Serialise(outer), Serialise(inner.command.value)])])
  {
    var c := GetParent(WithParent(New(inner), outer));
    assert c.args == [outer, inner.command.value];
    WireForm(c, [Serialise(outer), Serialise(inner.command.value)]);
  }
}

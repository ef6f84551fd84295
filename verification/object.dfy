/** `object`: an Object term built by folding `with_arg` over the values. */
module ObjectCmd {
  import opened Wrappers
  import opened Json
  import opened Reql

  /**
   * `new(values)`: one argument per value, in iteration order, each the
   * value's own conversion `toCmd`; no options and no check that the count
   * is even. An empty input gives an Object term with no arguments.
   */
  function New<T>(values: seq<T>, toCmd: T -> Command): (c: TermCmd)
    ensures c.typ == Object && c.opts == None
    ensures |c.args| == |values|
    ensures forall i :: 0 <= i < |values| ==> c.args[i] == toCmd(values[i])
  {
    FoldWithArg(Reql.New(Object), values, toCmd)
  }
}

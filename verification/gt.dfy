/** `gt`: a Gt term over one parameter or a list of literals. */
module GtCmd {
  import opened Wrappers
  import opened Json
  import opened Reql

  /** The two `GtArg` implementations: `AnyParam` and `Vec<T>`. */
  datatype GtArg = Param(param: AnyParam) | Values(values: seq<Json>)

  /** `into_gt_opts`: one parameter, or one literal per element, same length and order. */
  function IntoGtOpts(a: GtArg): (o: CmdOpts)
    ensures a.Param? ==> o == Single(a.param.command)
    ensures a.Values? ==> o.Many? && |o.args| == |a.values|
    ensures a.Values? ==> forall i :: 0 <= i < |a.values| ==> o.args[i] == FromJson(a.values[i])
  {
    match a
    case Param(p) => Single(p.command)
    case Values(vs) => Many(seq(|vs|, i requires 0 <= i < |vs| => FromJson(vs[i])))
  }

  /**
   * `new(args)`: a Gt term whose arguments are the bundle's, in order; an
   * empty list gives a Gt term with no arguments (no arity check).
   */
  function New(a: GtArg): (c: TermCmd)
    ensures c.typ == Gt && c.opts == None
    ensures a.Param? ==> c.args == [a.param.command]
    ensures a.Values? ==> |c.args| == |a.values|
    ensures a.Values? ==> forall i :: 0 <= i < |a.values| ==> c.args[i] == FromJson(a.values[i])
  {
    AddToCmdAppends(IntoGtOpts(a), Reql.New(Gt));
    AddToCmd(IntoGtOpts(a), Reql.New(Gt))
  }
}

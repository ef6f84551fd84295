/** `le`: an Le term over one parameter or a list of literals. */
module LeCmd {
  import opened Wrappers
  import opened Json
  import opened Reql

  /** The two `LeArg` implementations: `AnyParam` and `Vec<T>`. */
  datatype LeArg = Param(param: AnyParam) | Values(values: seq<Json>)

  /** `into_le_opts`: one parameter, or one literal per element, same length and order. */
  function IntoLeOpts(a: LeArg): (o: CmdOpts)
    ensures a.Param? ==> o == Single(a.param.command)
    ensures a.Values? ==> o.Many? && |o.args| == |a.values|
    ensures a.Values? ==> forall i :: 0 <= i < |a.values| ==> o.args[i] == FromJson(a.values[i])
  {
    match a
    case Param(p) => Single(p.command)
    case Values(vs) => Many(seq(|vs|, i requires 0 <= i < |vs| => FromJson(vs[i])))
  }

  /**
   * `new(args)`: an Le term whose arguments are the bundle's, in order; an
   * empty list gives an Le term with no arguments (no arity check).
   */
  function New(a: LeArg): (c: TermCmd)
    ensures c.typ == Le && c.opts == None
    ensures a.Param? ==> c.args == [a.param.command]
    ensures a.Values? ==> |c.args| == |a.values|
    ensures a.Values? ==> forall i :: 0 <= i < |a.values| ==> c.args[i] == FromJson(a.values[i])
  {
    AddToCmdAppends(IntoLeOpts(a), Reql.New(Le));
    AddToCmd(IntoLeOpts(a), Reql.New(Le))
  }
}

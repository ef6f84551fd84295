/** `max`: a Max term with an optional field name or function, and an optional index. */
module MaxCmd {
  import opened Wrappers
  import opened Json
  import opened Reql

  /** `MaxOption`: its one field has no skip attribute, so an unset index is sent as null. */
  datatype MaxOption = MaxOption(index: Option<string>)

  function OptionFields(o: MaxOption): seq<Field> {
    [Field("index", if o.index.Some? then JStr(o.index.value) else JNull)]
  }

  datatype MaxBuilder = MaxBuilder(command: TermCmd)

  /** `constructor`: a Max term, with the argument when one is given. */
  function Constructor(arg: Option<Command>): (b: MaxBuilder)
    ensures Serialise(b.command) == JArr([JInt(148), JArr(if arg.Some? then [Serialise(arg.value)] else [])])
  {
    var command := if arg.Some? then WithArg(Reql.New(Max), arg.value) else Reql.New(Max);
    WireForm(command, if arg.Some? then [Serialise(arg.value)] else []);
    MaxBuilder(command)
  }

  /** `new()`: no arguments. */
  function New(): (b: MaxBuilder)
    ensures Serialise(b.command) == JArr([JInt(148), JArr([])])
  {
    Constructor(None)
  }

  /** `new_by_value(field_name)`: the field name as the only argument. */
  function NewByValue(fieldName: string): (b: MaxBuilder)
    ensures Serialise(b.command) == JArr([JInt(148), JArr([JStr(fieldName)])])
  {
    Constructor(Some(FromJson(JStr(fieldName))))
  }

  /** `new_by_func(func)`: the function term as the only argument. */
  function NewByFunc(func: TermCmd): (b: MaxBuilder)
    ensures |b.command.args| == 1 && b.command.args[0] == func
    ensures Serialise(b.command) == JArr([JInt(148), JArr([Serialise(func)])])
  {
    Constructor(Some(func))
  }

  /** `with_index`: attaches `{"index": name}` directly to the term; the arguments stay. */
  function WithIndex(b: MaxBuilder, index: string): (r: MaxBuilder)
    ensures r.command.typ == b.command.typ && r.command.args == b.command.args
    ensures r.command.opts == Some([Field("index", JStr(index))])
    ensures r.command.opts.Some? && Get(r.command.opts.value, "index") == Some(JStr(index))
    ensures |Serialise(r.command).items| == 3
  {
    MaxBuilder(WithOpts(b.command, OptionFields(MaxOption(Some(index)))))
  }

  /** `_with_parent`: the parent becomes argument 0 and can be split off again. */
  function WithParent(b: MaxBuilder, parent: Command): (r: MaxBuilder)
    ensures ParentOf(r.command) == Some(parent) && WithoutParent(r.command) == b.command
  {
    WithParentInverse(b.command, parent);
    MaxBuilder(Reql.WithParent(b.command, parent))
  }

  /** `get_parent` (and `Into<Command>`): the term as built. */
  function GetParent(b: MaxBuilder): (r: Command)
    ensures r == b.command
  {
    b.command
  }

  /** Chaining keeps the argument of `new_by_value` after the parent. */
  lemma ChainedByValue(parent: Command, fieldName: string)
    ensures GetParent(WithParent(NewByValue(fieldName), parent)).args == [parent, FromJson(JStr(fieldName))]
  {
  }
}

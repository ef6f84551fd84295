/** `get_all`: a GetAll term with one argument per key, and an index option. */
module GetAllCmd {
  import opened Wrappers
  import opened Json
  import opened Reql

  /** `GetAllOption`: no skip attribute, so an unset index is sent as null. */
  datatype GetAllOption = GetAllOption(index: Option<string>)

  function OptionFields(o: GetAllOption): seq<Field> {
    [Field("index", if o.index.Some? then JStr(o.index.value) else JNull)]
  }

  datatype GetAllBuilder = GetAllBuilder(command: TermCmd, opts: GetAllOption)

  /**
   * `GetAllBuilder::new(index_keys)`: one literal argument per key, in key
   * order; an empty key list gives a GetAll term with no arguments.
   */
  method New(indexKeys: seq<string>) returns (b: GetAllBuilder)
    ensures b.command.typ == GetAll && b.command.opts == None
    ensures |b.command.args| == |indexKeys|
    ensures forall i :: 0 <= i < |indexKeys| ==> b.command.args[i] == FromJson(JStr(indexKeys[i]))
    ensures b.opts == GetAllOption(None)
  {
    var command := Reql.New(GetAll);
    for i := 0 to |indexKeys|
      invariant command.typ == GetAll && command.opts == None
      invariant |command.args| == i
      invariant forall j :: 0 <= j < i ==> command.args[j] == FromJson(JStr(indexKeys[j]))
    {
      command := WithArg(command, FromJson(JStr(indexKeys[i])));
    }
    b := GetAllBuilder(command, GetAllOption(None));
  }

  /**
   * `make_query`: the options are attached; the index key is always sent,
   * as null when no index was chosen.
   */
  function MakeQuery(b: GetAllBuilder): (r: TermCmd)
    ensures r.typ == b.command.typ && r.args == b.command.args
    ensures r.opts == Some([Field("index", if b.opts.index.Some? then JStr(b.opts.index.value) else JNull)])
    ensures r.opts.Some? && Get(r.opts.value, "index") == Some(if b.opts.index.Some? then JStr(b.opts.index.value) else JNull)
    ensures |Serialise(r).items| == 3
  {
    WithOpts(b.command, OptionFields(b.opts))
  }

  function WithIndex(b: GetAllBuilder, index: string): (r: GetAllBuilder)
    ensures r.opts.index == Some(index) && r.command == b.command
  {
    b.(opts := GetAllOption(Some(index)))
  }

  /** `_with_parent`: the parent becomes argument 0 and can be split off again. */
  function WithParent(b: GetAllBuilder, parent: Command): (r: GetAllBuilder)
    ensures ParentOf(r.command) == Some(parent) && WithoutParent(r.command) == b.command
    ensures r.opts == b.opts
  {
    WithParentInverse(b.command, parent);
    b.(command := Reql.WithParent(b.command, parent))
  }

  /** `get_parent`: the bare term, without the option slot. */
  function GetParent(b: GetAllBuilder): (r: Command)
    ensures r == b.command
  {
    b.command
  }

  /**
   * Chaining after `with_index` drops the index: what `get_parent` hands on
   * is the same whatever index was chosen, and carries no index option.
   */
  lemma GetParentDropsIndex(b: GetAllBuilder, index: string)
    requires b.command.opts == None
    ensures GetParent(WithIndex(b, index)) == GetParent(b)
    ensures Serialise(GetParent(WithIndex(b, index))) != Serialise(MakeQuery(WithIndex(b, index)))
  {
  }
}

/** `between`: a Between term over two keys, with index and bound options. */
module BetweenCmd {
  import opened Wrappers
  import opened Json
  import opened Reql

  /** Whether a bound includes its key. */
  datatype Status = Open | Closed

  function StatusJson(s: Status): Json {
    match s
    case Open => JStr("open")
    case Closed => JStr("closed")
  }

  datatype BetweenOption = BetweenOption(index: Option<string>, leftBound: Option<Status>, rightBound: Option<Status>)

  const DefaultOption := BetweenOption(None, None, None)

  function Entries(o: BetweenOption): seq<Entry> {
    [ Entry("index", if o.index.Some? then Some(JStr(o.index.value)) else None),
      Entry("left_bound", if o.leftBound.Some? then Some(StatusJson(o.leftBound.value)) else None),
      Entry("right_bound", if o.rightBound.Some? then Some(StatusJson(o.rightBound.value)) else None) ]
  }

  /** The serialised options object (every field skips `None`). */
  function OptionFields(o: BetweenOption): seq<Field> {
    SparseObject(Entries(o))
  }

  /**
   * Each key is present exactly when its field is set, with the field's
   * value; no other key appears; the object is empty only for the defaults.
   */
  lemma OptionFieldsShape(o: BetweenOption)
    ensures Get(OptionFields(o), "index") == if o.index.Some? then Some(JStr(o.index.value)) else None
    ensures Get(OptionFields(o), "left_bound") == if o.leftBound.Some? then Some(StatusJson(o.leftBound.value)) else None
    ensures Get(OptionFields(o), "right_bound") == if o.rightBound.Some? then Some(StatusJson(o.rightBound.value)) else None
    ensures forall f :: f in OptionFields(o) ==> f.key in ["index", "left_bound", "right_bound"]
    ensures OptionFields(o) == [] <==> o == DefaultOption
  {
    var e := Entries(o);
    assert DistinctKeys(e);
    SparseObjectGet(e, 0);
    SparseObjectGet(e, 1);
    SparseObjectGet(e, 2);
  }

  datatype BetweenBuilder = BetweenBuilder(command: TermCmd, opts: BetweenOption)

  /** `BetweenBuilder::new(lower_key, upper_key)`. */
  function New(lowerKey: Json, upperKey: Json): (b: BetweenBuilder)
    ensures Serialise(b.command) == JArr([JInt(182), JArr([EncodeDatum(lowerKey), EncodeDatum(upperKey)])])
    ensures b.opts == DefaultOption
  {
    var command := WithArg(WithArg(Reql.New(Between), FromJson(lowerKey)), FromJson(upperKey));
    WireForm(command, [EncodeDatum(lowerKey), EncodeDatum(upperKey)]);
    BetweenBuilder(command, DefaultOption)
  }

  /**
   * `make_query`: the accumulated options are attached to the term, and are
   * sent as a third wire element exactly when some option was set.
   */
  function MakeQuery(b: BetweenBuilder): (r: TermCmd)
    ensures r.typ == b.command.typ && r.args == b.command.args
    ensures r.opts == Some(OptionFields(b.opts))
    ensures |Serialise(r).items| == 3 <==> b.opts != DefaultOption
  {
    OptionFieldsShape(b.opts);
    WithOpts(b.command, OptionFields(b.opts))
  }

  function WithIndex(b: BetweenBuilder, index: string): BetweenBuilder {
    b.(opts := b.opts.(index := Some(index)))
  }

  function WithLeftBound(b: BetweenBuilder, s: Status): BetweenBuilder {
    b.(opts := b.opts.(leftBound := Some(s)))
  }

  function WithRightBound(b: BetweenBuilder, s: Status): BetweenBuilder {
    b.(opts := b.opts.(rightBound := Some(s)))
  }

  /** Each setter writes its own option key and leaves the other keys and the term alone. */
  lemma SettersTouchOwnKey(b: BetweenBuilder, index: string, l: Status, r: Status)
    ensures var x := WithIndex(b, index);
      && Get(OptionFields(x.opts), "index") == Some(JStr(index))
      && Get(OptionFields(x.opts), "left_bound") == Get(OptionFields(b.opts), "left_bound")
      && Get(OptionFields(x.opts), "right_bound") == Get(OptionFields(b.opts), "right_bound")
      && x.command == b.command
    ensures var x := WithLeftBound(b, l);
      && Get(OptionFields(x.opts), "left_bound") == Some(StatusJson(l))
      && Get(OptionFields(x.opts), "index") == Get(OptionFields(b.opts), "index")
      && Get(OptionFields(x.opts), "right_bound") == Get(OptionFields(b.opts), "right_bound")
      && x.command == b.command
    ensures var x := WithRightBound(b, r);
      && Get(OptionFields(x.opts), "right_bound") == Some(StatusJson(r))
      && Get(OptionFields(x.opts), "index") == Get(OptionFields(b.opts), "index")
      && Get(OptionFields(x.opts), "left_bound") == Get(OptionFields(b.opts), "left_bound")
      && x.command == b.command
  {
    OptionFieldsShape(b.opts);
    OptionFieldsShape(WithIndex(b, index).opts);
    OptionFieldsShape(WithLeftBound(b, l).opts);
    OptionFieldsShape(WithRightBound(b, r).opts);
  }

  /** `_with_parent`: the parent becomes argument 0 and can be split off again. */
  function WithParent(b: BetweenBuilder, parent: Command): (r: BetweenBuilder)
    ensures ParentOf(r.command) == Some(parent) && WithoutParent(r.command) == b.command
    ensures r.opts == b.opts
  {
    WithParentInverse(b.command, parent);
    b.(command := Reql.WithParent(b.command, parent))
  }

  /** Chained `between` has three arguments: the parent, then the two keys in order. */
  lemma ChainedArguments(parent: Command, lowerKey: Json, upperKey: Json)
    ensures WithParent(New(lowerKey, upperKey), parent).command.args == [parent, FromJson(lowerKey), FromJson(upperKey)]
  {
  }
}

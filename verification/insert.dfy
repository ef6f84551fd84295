/**
 * `insert`: a builder holding the Insert term, its options and an optional
 * conflict-resolution function. Setters return an updated builder;
 * `make_query` decides where the options go.
 */
module InsertCmd {
  import opened Wrappers
  import opened Json
  import opened Reql

  datatype Durability = Hard | Soft
  datatype ReturnChanges = Changes(enabled: bool) | Always
  datatype Conflict = ConflictError | ConflictReplace | ConflictUpdate

  /** Option values as RethinkDB's insert command names them. */
  function DurabilityJson(d: Durability): Json {
    match d
    case Hard => JStr("hard")
    case Soft => JStr("soft")
  }

  function ReturnChangesJson(r: ReturnChanges): Json {
    match r
    case Changes(b) => JBool(b)
    case Always => JStr("always")
  }

  function ConflictJson(c: Conflict): Json {
    match c
    case ConflictError => JStr("error")
    case ConflictReplace => JStr("replace")
    case ConflictUpdate => JStr("update")
  }

  datatype InsertOption = InsertOption(
    durability: Option<Durability>,
    returnChanges: Option<ReturnChanges>,
    conflict: Option<Conflict>,
    ignoreWriteHook: Option<bool>)

  const DefaultOption := InsertOption(None, None, None, None)

  /** The struct's fields in declaration order, with their serialised values. */
  function Entries(o: InsertOption): seq<Entry> {
    [ Entry("durability", if o.durability.Some? then Some(DurabilityJson(o.durability.value)) else None),
      Entry("return_changes", if o.returnChanges.Some? then Some(ReturnChangesJson(o.returnChanges.value)) else None),
      Entry("conflict", if o.conflict.Some? then Some(ConflictJson(o.conflict.value)) else None),
      Entry("ignore_write_hook", if o.ignoreWriteHook.Some? then Some(JBool(o.ignoreWriteHook.value)) else None) ]
  }

  /** The serialised options object (every field skips `None`). */
  function OptionFields(o: InsertOption): seq<Field> {
    SparseObject(Entries(o))
  }

  /**
   * Each key of the serialised options is present exactly when its field is
   * set and then carries that field's value; no other key appears.
   */
  lemma OptionFieldsShape(o: InsertOption)
    ensures Get(OptionFields(o), "durability") == if o.durability.Some? then Some(DurabilityJson(o.durability.value)) else None
    ensures Get(OptionFields(o), "return_changes") == if o.returnChanges.Some? then Some(ReturnChangesJson(o.returnChanges.value)) else None
    ensures Get(OptionFields(o), "conflict") == if o.conflict.Some? then Some(ConflictJson(o.conflict.value)) else None
    ensures Get(OptionFields(o), "ignore_write_hook") == if o.ignoreWriteHook.Some? then Some(JBool(o.ignoreWriteHook.value)) else None
    ensures forall f :: f in OptionFields(o) ==> f.key in ["durability", "return_changes", "conflict", "ignore_write_hook"]
  {
    var e := Entries(o);
    assert DistinctKeys(e);
    SparseObjectGet(e, 0);
    SparseObjectGet(e, 1);
    SparseObjectGet(e, 2);
    SparseObjectGet(e, 3);
  }

  /** Default options serialise to an empty object. */
  lemma DefaultOptionIsEmpty()
    ensures OptionFields(DefaultOption) == []
  {
  }

  datatype InsertBuilder = InsertBuilder(command: TermCmd, opts: InsertOption, conflictFunc: Option<TermCmd>)

  /** `InsertBuilder::new(document)`. */
  function New(document: Json): (b: InsertBuilder)
    ensures Serialise(b.command) == JArr([JInt(56), JArr([EncodeDatum(document)])])
    ensures b.opts == DefaultOption && b.conflictFunc == None
  {
    var command := WithArg(Reql.New(Insert), FromJson(document));
    WireForm(command, [EncodeDatum(document)]);
    InsertBuilder(command, DefaultOption, None)
  }

  function WithDurability(b: InsertBuilder, d: Durability): InsertBuilder {
    b.(opts := b.opts.(durability := Some(d)))
  }

  function WithReturnChanges(b: InsertBuilder, r: ReturnChanges): InsertBuilder {
    b.(opts := b.opts.(returnChanges := Some(r)))
  }

  function WithIgnoreWriteHook(b: InsertBuilder, w: bool): InsertBuilder {
    b.(opts := b.opts.(ignoreWriteHook := Some(w)))
  }

  function WithConflict(b: InsertBuilder, c: Conflict): InsertBuilder {
    b.(opts := b.opts.(conflict := Some(c)))
  }

  function WithConflictFunc(b: InsertBuilder, func: TermCmd): (r: InsertBuilder)
    ensures r.conflictFunc == Some(func)
    ensures r.command == b.command && OptionFields(r.opts) == OptionFields(b.opts)
  {
    b.(conflictFunc := Some(func))
  }

  /**
   * Each option setter writes its own key of the serialised options and
   * leaves the other keys, the term and the conflict function as they were.
   */
  lemma SettersTouchOwnKey(b: InsertBuilder, d: Durability, rc: ReturnChanges, c: Conflict, w: bool)
    ensures var r := WithDurability(b, d);
      && Get(OptionFields(r.opts), "durability") == Some(DurabilityJson(d))
      && Get(OptionFields(r.opts), "return_changes") == Get(OptionFields(b.opts), "return_changes")
      && Get(OptionFields(r.opts), "conflict") == Get(OptionFields(b.opts), "conflict")
      && Get(OptionFields(r.opts), "ignore_write_hook") == Get(OptionFields(b.opts), "ignore_write_hook")
      && r.command == b.command && r.conflictFunc == b.conflictFunc
    ensures var r := WithReturnChanges(b, rc);
      && Get(OptionFields(r.opts), "return_changes") == Some(ReturnChangesJson(rc))
      && Get(OptionFields(r.opts), "durability") == Get(OptionFields(b.opts), "durability")
      && Get(OptionFields(r.opts), "conflict") == Get(OptionFields(b.opts), "conflict")
      && Get(OptionFields(r.opts), "ignore_write_hook") == Get(OptionFields(b.opts), "ignore_write_hook")
      && r.command == b.command && r.conflictFunc == b.conflictFunc
    ensures var r := WithConflict(b, c);
      && Get(OptionFields(r.opts), "conflict") == Some(ConflictJson(c))
      && Get(OptionFields(r.opts), "durability") == Get(OptionFields(b.opts), "durability")
      && Get(OptionFields(r.opts), "return_changes") == Get(OptionFields(b.opts), "return_changes")
      && Get(OptionFields(r.opts), "ignore_write_hook") == Get(OptionFields(b.opts), "ignore_write_hook")
      && r.command == b.command && r.conflictFunc == b.conflictFunc
    ensures var r := WithIgnoreWriteHook(b, w);
      && Get(OptionFields(r.opts), "ignore_write_hook") == Some(JBool(w))
      && Get(OptionFields(r.opts), "durability") == Get(OptionFields(b.opts), "durability")
      && Get(OptionFields(r.opts), "return_changes") == Get(OptionFields(b.opts), "return_changes")
      && Get(OptionFields(r.opts), "conflict") == Get(OptionFields(b.opts), "conflict")
      && r.command == b.command && r.conflictFunc == b.conflictFunc
  {
    OptionFieldsShape(b.opts);
    OptionFieldsShape(WithDurability(b, d).opts);
    OptionFieldsShape(WithReturnChanges(b, rc).opts);
    OptionFieldsShape(WithConflict(b, c).opts);
    OptionFieldsShape(WithIgnoreWriteHook(b, w).opts);
  }

  /** Repeated setter calls: the last value wins, for each of the four setters. */
  lemma SettersLastWriteWins(b: InsertBuilder, d1: Durability, d2: Durability, rc1: ReturnChanges, rc2: ReturnChanges,
                             c1: Conflict, c2: Conflict, w1: bool, w2: bool)
    ensures WithDurability(WithDurability(b, d1), d2) == WithDurability(b, d2)
    ensures WithReturnChanges(WithReturnChanges(b, rc1), rc2) == WithReturnChanges(b, rc2)
    ensures WithConflict(WithConflict(b, c1), c2) == WithConflict(b, c2)
    ensures WithIgnoreWriteHook(WithIgnoreWriteHook(b, w1), w2) == WithIgnoreWriteHook(b, w2)
  {
  }

  /** Setters of different fields commute: all six pairs. */
  lemma SettersCommute(b: InsertBuilder, d: Durability, rc: ReturnChanges, c: Conflict, w: bool)
    ensures WithReturnChanges(WithDurability(b, d), rc) == WithDurability(WithReturnChanges(b, rc), d)
    ensures WithConflict(WithDurability(b, d), c) == WithDurability(WithConflict(b, c), d)
    ensures WithIgnoreWriteHook(WithDurability(b, d), w) == WithDurability(WithIgnoreWriteHook(b, w), d)
    ensures WithConflict(WithReturnChanges(b, rc), c) == WithReturnChanges(WithConflict(b, c), rc)
    ensures WithIgnoreWriteHook(WithReturnChanges(b, rc), w) == WithReturnChanges(WithIgnoreWriteHook(b, w), rc)
    ensures WithIgnoreWriteHook(WithConflict(b, c), w) == WithConflict(WithIgnoreWriteHook(b, w), c)
  {
  }

  /**
   * `make_query`: with a conflict function the options ride on that function,
   * which becomes one more argument of the Insert term; otherwise they are
   * attached to the Insert term itself.
   */
  function MakeQuery(b: InsertBuilder): (r: TermCmd)
    ensures r.typ == b.command.typ
    ensures b.conflictFunc.None? ==> r.args == b.command.args && r.opts == Some(OptionFields(b.opts))
    ensures b.conflictFunc.Some? ==>
      && |r.args| == |b.command.args| + 1
      && r.args[..|b.command.args|] == b.command.args
      && r.opts == b.command.opts
      && r.args[|b.command.args|].Term?
      && r.args[|b.command.args|].typ == b.conflictFunc.value.typ
      && r.args[|b.command.args|].args == b.conflictFunc.value.args
      && r.args[|b.command.args|].opts == Some(OptionFields(b.opts))
  {
    if b.conflictFunc.Some? then
      WithArg(b.command, WithOpts(b.conflictFunc.value, OptionFields(b.opts)))
    else
      WithOpts(b.command, OptionFields(b.opts))
  }

  /**
   * `_with_parent`: the chained-from term goes first, before the document;
   * splitting it off again gives back the term as it was.
   */
  function WithParent(b: InsertBuilder, parent: Command): (r: InsertBuilder)
    ensures ParentOf(r.command) == Some(parent) && WithoutParent(r.command) == b.command
    ensures |r.command.args| == |b.command.args| + 1
    ensures r.command.args[0] == parent && r.command.args[1..] == b.command.args
    ensures r.opts == b.opts && r.conflictFunc == b.conflictFunc
  {
    WithParentInverse(b.command, parent);
    b.(command := Reql.WithParent(b.command, parent))
  }

  /** `Into<Command>`: the bare term; options and conflict function are not carried. */
  function IntoCommand(b: InsertBuilder): (r: Command)
    ensures r == b.command
  {
    b.command
  }

  /**
   * Converting with `into` forgets whatever options and conflict function
   * were set: only `make_query` sends them.
   */
  lemma IntoCommandDropsOptions(b: InsertBuilder, o: InsertOption, f: Option<TermCmd>)
    ensures IntoCommand(b.(opts := o, conflictFunc := f)) == IntoCommand(b)
    ensures IntoCommand(b).opts == b.command.opts
  {
  }

  /**
   * The serialisation test: `r.table("foo").insert(doc)` goes on the wire as
   * `[56,[[15,["foo"]],doc]]`, the table term first and no options object.
   */
  lemma TableInsertWireForm(document: Json)
    ensures var table := WithArg(Reql.New(Table), FromJson(JStr("foo")));
      Serialise(IntoCommand(WithParent(New(document), table)))
      == JArr([JInt(56), JArr([JArr([JInt(15), JArr([JStr("foo")])]), EncodeDatum(document)])])
  {
    var table := WithArg(Reql.New(Table), FromJson(JStr("foo")));
    var c := IntoCommand(WithParent(New(document), table));
    assert c.args == [table, FromJson(document)];
    WireForm(table, [JStr("foo")]);
    WireForm(c, [Serialise(table), EncodeDatum(document)]);
  }
}

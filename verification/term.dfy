/**
 * The ReQL query term: a tree of typed term nodes, each with an ordered list
 * of argument terms and an optional options object, plus JSON literals
 * (`Command::from_json`). Builders extend a term by value; nothing is
 * updated in place.
 *
 * The wire form is RethinkDB's JSON term encoding from ql2.proto:
 * `[type_code, [args...]]`, or `[type_code, [args...], {opts...}]` when the
 * options object is non-empty. JSON arrays inside literals travel as
 * `MAKE_ARRAY` terms (`[2, [...]]`), so that a literal array is never read
 * back as a term.
 */
module Reql {
  import opened Wrappers
  import opened Json

  /** The term kinds the builders of this model produce. */
  datatype TermType =
    | Table | Eq | Le | Gt | Map | ConcatMap | OuterJoin | Insert | DbCreate
    | Limit | IndexDrop | GetAll | SetIntersection | Object | Max | Point
    | Line | Distance | Fill | PolygonSub | Reconfigure | Between

  /** Term type code of MAKE_ARRAY in ql2.proto. */
  const MAKE_ARRAY: int := 2

  /** The TermType numbers of ql2.proto. */
  function Code(t: TermType): (n: int)
    ensures n > 0 && n != MAKE_ARRAY
  {
    match t
    case Table => 15
    case Eq => 17
    case Le => 20
    case Gt => 21
    case Map => 38
    case ConcatMap => 40
    case OuterJoin => 49
    case Insert => 56
    case DbCreate => 57
    case Limit => 71
    case IndexDrop => 76
    case GetAll => 78
    case SetIntersection => 89
    case Object => 143
    case Max => 148
    case Point => 159
    case Line => 160
    case Distance => 162
    case Fill => 167
    case PolygonSub => 171
    case Reconfigure => 176
    case Between => 182
  }

  /** The term type a server reads from a code, if the code is one of ours. */
  function TermTypeOf(n: int): (r: Option<TermType>)
    ensures r.Some? ==> Code(r.value) == n
  {
    if n == 15 then Some(Table)
    else if n == 17 then Some(Eq)
    else if n == 20 then Some(Le)
    else if n == 21 then Some(Gt)
    else if n == 38 then Some(Map)
    else if n == 40 then Some(ConcatMap)
    else if n == 49 then Some(OuterJoin)
    else if n == 56 then Some(Insert)
    else if n == 57 then Some(DbCreate)
    else if n == 71 then Some(Limit)
    else if n == 76 then Some(IndexDrop)
    else if n == 78 then Some(GetAll)
    else if n == 89 then Some(SetIntersection)
    else if n == 143 then Some(Object)
    else if n == 148 then Some(Max)
    else if n == 159 then Some(Point)
    else if n == 160 then Some(Line)
    else if n == 162 then Some(Distance)
    else if n == 167 then Some(Fill)
    else if n == 171 then Some(PolygonSub)
    else if n == 176 then Some(Reconfigure)
    else if n == 182 then Some(Between)
    else None
  }

  /** Every term type is read back from its own code: the code table is injective. */
  lemma CodeRoundTrip(t: TermType)
    ensures TermTypeOf(Code(t)) == Some(t)
  {
  }

  /** A query term, or a JSON literal. */
  datatype Command =
    | Term(typ: TermType, args: seq<Command>, opts: Option<seq<Field>>)
    | Datum(value: Json)

  /** The commands a builder holds and extends: always a term node. */
  type TermCmd = c: Command | c.Term? witness Term(Table, [], None)

  /** `Command::new(typ)`: a term with no arguments and no options. */
  function New(t: TermType): TermCmd {
    Term(t, [], None)
  }

  /** `Command::from_json(v)`: a literal. */
  function FromJson(v: Json): Command {
    Datum(v)
  }

  /** `with_arg`: appends an argument. */
  function WithArg(c: TermCmd, a: Command): TermCmd {
    Term(c.typ, c.args + [a], c.opts)
  }

  /** `with_parent`: the chained-from term becomes argument 0. */
  function WithParent(c: TermCmd, parent: Command): TermCmd {
    Term(c.typ, [parent] + c.args, c.opts)
  }

  /** `with_opts`: attaches the options object (replacing any earlier one). */
  function WithOpts(c: TermCmd, o: seq<Field>): TermCmd {
    Term(c.typ, c.args, Some(o))
  }

  /** Appends several arguments in order: a fold of `with_arg`. */
  function WithArgs(c: TermCmd, xs: seq<Command>): TermCmd
    decreases |xs|
  {
    if xs == [] then c else WithArgs(WithArg(c, xs[0]), xs[1..])
  }

  /** Folding `with_arg` over a list appends exactly that list, in order. */
  lemma {:induction false} WithArgsAppends(c: TermCmd, xs: seq<Command>)
    ensures WithArgs(c, xs) == Term(c.typ, c.args + xs, c.opts)
    decreases |xs|
  {
    if xs == [] {
      assert c.args + xs == c.args;
    } else {
      WithArgsAppends(WithArg(c, xs[0]), xs[1..]);
      assert c.args + [xs[0]] + xs[1..] == c.args + xs;
    }
  }

  /**
   * `iter().fold(start, |cmd, v| cmd.with_arg(conv(v)))`: appends the
   * conversion of each value, left to right.
   */
  function FoldWithArg<T>(acc: TermCmd, values: seq<T>, conv: T -> Command): (c: TermCmd)
    ensures c.typ == acc.typ && c.opts == acc.opts
    ensures |c.args| == |acc.args| + |values|
    ensures c.args[..|acc.args|] == acc.args
    ensures forall i :: 0 <= i < |values| ==> c.args[|acc.args| + i] == conv(values[i])
    decreases |values|
  {
    if values == [] then acc
    else
      var r := FoldWithArg(WithArg(acc, conv(values[0])), values[1..], conv);
      assert forall i :: 1 <= i < |values| ==> values[i] == values[1..][i - 1];
      assert r.args[..|acc.args| + 1][..|acc.args|] == r.args[..|acc.args|];
      r
  }

  /** A value the comparison commands accept as is (`AnyParam`), carrying its term. */
  datatype AnyParam = AnyParam(command: Command)

  /** The parent of a chained term and the term without it. */
  function ParentOf(c: TermCmd): Option<Command> {
    if c.args == [] then None else Some(c.args[0])
  }

  function WithoutParent(c: TermCmd): TermCmd {
    if c.args == [] then c else Term(c.typ, c.args[1..], c.opts)
  }

  /**
   * `with_parent` is undone by splitting off argument 0: the parent is
   * recovered and the rest of the term is exactly what it was.
   */
  lemma WithParentInverse(c: TermCmd, p: Command)
    ensures ParentOf(WithParent(c, p)) == Some(p)
    ensures WithoutParent(WithParent(c, p)) == c
  {
    assert ([p] + c.args)[1..] == c.args;
  }

  /** The argument bundle of `CmdOpts`: one argument or several. */
  datatype CmdOpts = Single(arg: Command) | Many(args: seq<Command>)

  /** `CmdOpts::add_to_cmd`: appends the bundle's arguments in order. */
  function AddToCmd(o: CmdOpts, c: TermCmd): TermCmd {
    match o
    case Single(a) => WithArg(c, a)
    case Many(xs) => WithArgs(c, xs)
  }

  /** The arguments a bundle contributes. */
  function BundleArgs(o: CmdOpts): seq<Command> {
    match o
    case Single(a) => [a]
    case Many(xs) => xs
  }

  lemma AddToCmdAppends(o: CmdOpts, c: TermCmd)
    ensures AddToCmd(o, c) == Term(c.typ, c.args + BundleArgs(o), c.opts)
  {
    if o.Many? {
      WithArgsAppends(c, o.args);
    }
  }

  // ---------------------------------------------------------------------
  // Wire encoding

  /** A literal as it travels: arrays become MAKE_ARRAY terms, recursively. */
  function EncodeDatum(j: Json): Json {
    match j
    case JArr(xs) =>
      JArr([JInt(MAKE_ARRAY), JArr(seq(|xs|, i requires 0 <= i < |xs| => EncodeDatum(xs[i])))])
    case JObj(fs) =>
      JObj(seq(|fs|, i requires 0 <= i < |fs| => Field(fs[i].key, EncodeDatum(fs[i].value))))
    case _ => j
  }

  /** The serialised options, or nothing when there are none to send. */
  function EncodeOpts(opts: Option<seq<Field>>): seq<Json> {
    if opts.Some? && opts.value != [] then [EncodeDatum(JObj(opts.value))] else []
  }

  /** `cmd::serialise`: the wire form of a term tree. */
  function Serialise(c: Command): (r: Json)
    ensures c.Term? ==> r.JArr? && 2 <= |r.items| <= 3 && r.items[0] == JInt(Code(c.typ))
    ensures c.Term? ==> r.items[1].JArr? && |r.items[1].items| == |c.args|
    ensures c.Term? ==> (|r.items| == 3 <==> c.opts.Some? && c.opts.value != [])
  {
    match c
    case Datum(j) => EncodeDatum(j)
    case Term(t, args, opts) =>
      JArr([JInt(Code(t)), JArr(seq(|args|, i requires 0 <= i < |args| => Serialise(args[i])))]
           + EncodeOpts(opts))
  }

  /** A term's wire form, given the wire forms of its arguments. */
  lemma WireForm(c: Command, xs: seq<Json>)
    requires c.Term? && |xs| == |c.args|
    requires forall i :: 0 <= i < |xs| ==> xs[i] == Serialise(c.args[i])
    ensures Serialise(c) == JArr([JInt(Code(c.typ)), JArr(xs)] + EncodeOpts(c.opts))
    ensures c.opts.None? ==> Serialise(c) == JArr([JInt(Code(c.typ)), JArr(xs)])
  {
    assert Serialise(c).items[1].items == xs;
    assert [JInt(Code(c.typ)), JArr(xs)] + [] == [JInt(Code(c.typ)), JArr(xs)];
  }

  /** The literal a wire value stands for, if it is a well-formed literal. */
  function DecodeDatum(j: Json): Option<Json> {
    match j
    case JArr(items) =>
      if |items| == 2 && items[0] == JInt(MAKE_ARRAY) && items[1].JArr? then
        var xs := items[1].items;
        if forall i :: 0 <= i < |xs| ==> DecodeDatum(xs[i]).Some? then
          Some(JArr(seq(|xs|, i requires 0 <= i < |xs| && DecodeDatum(xs[i]).Some? => DecodeDatum(xs[i]).value)))
        else None
      else None
    case JObj(fs) =>
      if forall i :: 0 <= i < |fs| ==> DecodeDatum(fs[i].value).Some? then
        Some(JObj(seq(|fs|, i requires 0 <= i < |fs| && DecodeDatum(fs[i].value).Some? =>
          Field(fs[i].key, DecodeDatum(fs[i].value).value))))
      else None
    case _ => Some(j)
  }

  /** How the server reads a wire value back into a term tree. */
  function Decode(j: Json): Option<Command> {
    if j.JArr? && 2 <= |j.items| <= 3 && j.items[0].JInt? && j.items[1].JArr?
       && j.items[0].i != MAKE_ARRAY
    then
      var t := TermTypeOf(j.items[0].i);
      var xs := j.items[1].items;
      var opts := if |j.items| == 3 then DecodeDatum(j.items[2]) else None;
      if t.None? || (forall i :: 0 <= i < |xs| ==> Decode(xs[i]).Some?) == false then None
      else if |j.items| == 3 && (opts.None? || !opts.value.JObj?) then None
      else
        Some(Term(t.value,
                  seq(|xs|, i requires 0 <= i < |xs| && Decode(xs[i]).Some? => Decode(xs[i]).value),
                  if |j.items| == 3 then Some(opts.value.fields) else None))
    else
      var d := DecodeDatum(j);
      if d.None? then None else Some(Datum(d.value))
  }

  /** The same tree, with an empty options object dropped (it is never sent). */
  function Normalize(c: Command): Command {
    match c
    case Datum(j) => c
    case Term(t, args, opts) =>
      Term(t, seq(|args|, i requires 0 <= i < |args| => Normalize(args[i])),
           if opts == Some([]) then None else opts)
  }

  /** Every literal is read back unchanged from its wire form. */
  lemma {:induction false} DatumRoundTrip(j: Json)
    ensures DecodeDatum(EncodeDatum(j)) == Some(j)
  {
    match j
    case JArr(xs) =>
      var ys := seq(|xs|, i requires 0 <= i < |xs| => EncodeDatum(xs[i]));
      forall i | 0 <= i < |xs| ensures DecodeDatum(ys[i]) == Some(xs[i]) {
        DatumRoundTrip(xs[i]);
      }
      var back := seq(|ys|, i requires 0 <= i < |ys| && DecodeDatum(ys[i]).Some? => DecodeDatum(ys[i]).value);
      assert back == xs;
    case JObj(fs) =>
      var gs := seq(|fs|, i requires 0 <= i < |fs| => Field(fs[i].key, EncodeDatum(fs[i].value)));
      forall i | 0 <= i < |fs| ensures DecodeDatum(gs[i].value) == Some(fs[i].value) {
        DatumRoundTrip(fs[i].value);
      }
      var back := seq(|gs|, i requires 0 <= i < |gs| && DecodeDatum(gs[i].value).Some? =>
        Field(gs[i].key, DecodeDatum(gs[i].value).value));
      assert back == fs;
    case _ =>
  }

  /**
   * Reading a serialised term back gives the term itself, up to an empty
   * options object that was not sent: serialisation loses nothing else, so
   * two different builder results never share a wire form.
   */
  lemma {:induction false} SerialiseRoundTrip(c: Command)
    ensures Decode(Serialise(c)) == Some(Normalize(c))
  {
    match c
    case Datum(j) =>
      DatumRoundTrip(j);
    case Term(t, args, opts) =>
      var s := Serialise(c);
      var xs := s.items[1].items;
      CodeRoundTrip(t);
      forall i | 0 <= i < |xs| ensures Decode(xs[i]) == Some(Normalize(args[i])) {
        SerialiseRoundTrip(args[i]);
      }
      if opts.Some? && opts.value != [] {
        DatumRoundTrip(JObj(opts.value));
      }
      var back := seq(|xs|, i requires 0 <= i < |xs| && Decode(xs[i]).Some? => Decode(xs[i]).value);
      assert back == seq(|args|, i requires 0 <= i < |args| => Normalize(args[i]));
  }
}

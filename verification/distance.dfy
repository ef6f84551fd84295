/** `distance`: a Distance term over one or two geometries, always with an options object. */
module DistanceCmd {
  import opened Wrappers
  import opened Json
  import opened Reql

  /** Reference ellipsoid, under the names RethinkDB's `distance` command accepts. */
  datatype GeoSystem = Wgs84 | UnitSphere

  /** Distance unit, under the names RethinkDB's `distance` command accepts. */
  datatype Unit = Meter | Kilometer | InternationalMile | NauticalMile | Foot

  function GeoSystemJson(g: GeoSystem): Json {
    match g
    case Wgs84 => JStr("WGS84")
    case UnitSphere => JStr("unit_sphere")
  }

  function UnitJson(u: Unit): Json {
    match u
    case Meter => JStr("m")
    case Kilometer => JStr("km")
    case InternationalMile => JStr("mi")
    case NauticalMile => JStr("nm")
    case Foot => JStr("ft")
  }

  datatype DistanceOption = DistanceOption(geoSystem: Option<GeoSystem>, unit: Option<Unit>)

  const DefaultOption := DistanceOption(None, None)

  function Entries(o: DistanceOption): seq<Entry> {
    [ Entry("geo_system", if o.geoSystem.Some? then Some(GeoSystemJson(o.geoSystem.value)) else None),
      Entry("unit", if o.unit.Some? then Some(UnitJson(o.unit.value)) else None) ]
  }

  /** The serialised options object (both fields skip `None`). */
  function OptionFields(o: DistanceOption): seq<Field> {
    SparseObject(Entries(o))
  }

  /**
   * Each key is present exactly when its field is set, with the field's
   * value; the object is empty exactly for the default options.
   */
  lemma OptionFieldsShape(o: DistanceOption)
    ensures Get(OptionFields(o), "geo_system") == if o.geoSystem.Some? then Some(GeoSystemJson(o.geoSystem.value)) else None
    ensures Get(OptionFields(o), "unit") == if o.unit.Some? then Some(UnitJson(o.unit.value)) else None
    ensures forall f :: f in OptionFields(o) ==> f.key in ["geo_system", "unit"]
    ensures OptionFields(o) == [] <==> o == DefaultOption
  {
    var e := Entries(o);
    assert DistinctKeys(e);
    SparseObjectGet(e, 0);
    SparseObjectGet(e, 1);
  }

  /** The four `DistanceArg` implementations; geometries are carried as their terms. */
  datatype DistanceArg =
    | One(geometry: Command)
    | Two(geometry: Command, other: Command)
    | OneWithOptions(geometry: Command, opts: DistanceOption)
    | TwoWithOptions(geometry: Command, other: Command, opts: DistanceOption)

  /** `into_distance_opts`: first geometry, optional second, and the options (default unless given). */
  function IntoDistanceOpts(a: DistanceArg): (r: (Command, Option<Command>, DistanceOption))
    ensures r.0 == a.geometry
    ensures r.1.Some? <==> (a.Two? || a.TwoWithOptions?)
    ensures r.1.Some? ==> r.1.value == a.other
    ensures r.2 == (if a.One? || a.Two? then DefaultOption else a.opts)
  {
    match a
    case One(g) => (g, None, DefaultOption)
    case Two(g, h) => (g, Some(h), DefaultOption)
    case OneWithOptions(g, o) => (g, None, o)
    case TwoWithOptions(g, h, o) => (g, Some(h), o)
  }

  /**
   * `new(args)`: the geometries in order, the second only when supplied,
   * and the options object always attached (empty for the defaults).
   */
  function New(a: DistanceArg): (c: TermCmd)
    ensures c.typ == Distance
    ensures c.args == if a.Two? || a.TwoWithOptions? then [a.geometry, a.other] else [a.geometry]
    ensures c.opts == Some(OptionFields(IntoDistanceOpts(a).2))
    ensures (a.One? || a.Two?) ==> c.opts == Some([])
  {
    var (arg1, arg2, opts) := IntoDistanceOpts(a);
    var command := WithArg(Reql.New(Distance), arg1);
    var command := if arg2.Some? then WithArg(command, arg2.value) else command;
    OptionFieldsShape(DefaultOption);
    WithOpts(command, OptionFields(opts))
  }

  /**
   * On the wire the options object of `new` is a third element exactly when
   * some option was given: the default options send none.
   */
  lemma WireOptions(a: DistanceArg)
    ensures |Serialise(New(a)).items| == 3 <==> IntoDistanceOpts(a).2 != DefaultOption
  {
    OptionFieldsShape(IntoDistanceOpts(a).2);
  }

  /** The test call: two points and `unit = km` give two arguments and `{"unit": "km"}`. */
  lemma TwoPointsInKilometres(p1: Command, p2: Command)
    ensures var c := New(TwoWithOptions(p1, p2, DefaultOption.(unit := Some(Kilometer))));
      && c.args == [p1, p2]
      && c.opts == Some([Field("unit", JStr("km"))])
  {
    var o := DefaultOption.(unit := Some(Kilometer));
    var e := Entries(o);
    assert SparseObject(e[1..][1..]) == [];
    assert SparseObject(e[1..]) == [Field("unit", JStr("km"))];
    assert OptionFields(o) == [Field("unit", JStr("km"))];
    assert IntoDistanceOpts(TwoWithOptions(p1, p2, o)).2 == o;
  }
}

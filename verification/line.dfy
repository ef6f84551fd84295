/**
 * `Line`: a geometry value built from points, converted to a Line term of
 * Point terms, and `fill` to turn it into a polygon.
 */
module LineCmd {
  import opened Wrappers
  import opened Json
  import opened Reql

  /** A longitude/latitude pair, `[f64; 2]`. */
  datatype Coord = Coord(longitude: F64, latitude: F64)

  /** The part of a `Point` that a line reads: its coordinates. */
  datatype Point = Point(coordinates: Coord)

  /** The pseudo-type tag and geometry kind a line carries. */
  datatype ReqlType = Geometry
  datatype GeoType = LineString

  datatype Line = Line(reqlType: ReqlType, coordinates: seq<Coord>, typ: GeoType)

  /**
   * `Line::new(points)`: at least two points (fewer panics); the tags are
   * Geometry and LineString; one coordinate per point, in order.
   */
  function New(points: seq<Point>): (l: Line)
    requires |points| >= 2
    ensures l.reqlType == Geometry && l.typ == LineString
    ensures |l.coordinates| == |points|
    ensures forall i :: 0 <= i < |points| ==> l.coordinates[i] == points[i].coordinates
  {
    Line.Line(Geometry, seq(|points|, i requires 0 <= i < |points| => points[i].coordinates), LineString)
  }

  /** `Point::new(lon, lat).into()`: a Point term with the two numbers as arguments. */
  function PointCommand(c: Coord): Command {
    WithArg(WithArg(Reql.New(TermType.Point), FromJson(JFloat(c.longitude))), FromJson(JFloat(c.latitude)))
  }

  /**
   * `From<Line> for Command`: a Line term with one Point term per
   * coordinate, in order, and no options.
   */
  function IntoCommand(l: Line): (c: TermCmd)
    ensures c.typ == TermType.Line && c.opts == None
    ensures |c.args| == |l.coordinates|
    ensures forall i :: 0 <= i < |l.coordinates| ==> c.args[i] == PointCommand(l.coordinates[i])
  {
    FoldWithArg(Reql.New(TermType.Line), l.coordinates, PointCommand)
  }

  /** `fill`: a Fill term whose parent is the line's term. */
  function Fill(l: Line): (c: TermCmd)
    ensures c.typ == TermType.Fill && c.opts == None
    ensures ParentOf(c) == Some(IntoCommand(l)) && WithoutParent(c) == Reql.New(TermType.Fill)
  {
    WithParentInverse(Reql.New(TermType.Fill), IntoCommand(l));
    Reql.WithParent(Reql.New(TermType.Fill), IntoCommand(l))
  }

  /**
   * A line's term round-trips its points: each Point term carries the
   * point's longitude then latitude, so the coordinates can be read back.
   */
  lemma IntoCommandKeepsPoints(points: seq<Point>)
    requires |points| >= 2
    ensures var c := IntoCommand(New(points));
      && |c.args| == |points|
      && forall i :: 0 <= i < |points| ==>
           c.args[i].Term? && c.args[i].typ == TermType.Point
           && c.args[i].args == [Datum(JFloat(points[i].coordinates.longitude)), Datum(JFloat(points[i].coordinates.latitude))]
  {
    var l := New(points);
    var c := IntoCommand(l);
    forall i | 0 <= i < |points|
      ensures c.args[i].Term? && c.args[i].typ == TermType.Point
      ensures c.args[i].args == [Datum(JFloat(points[i].coordinates.longitude)), Datum(JFloat(points[i].coordinates.latitude))]
    {
      assert c.args[i] == PointCommand(l.coordinates[i]);
    }
  }
}

/** `save_point_cloud`: the lines of the ASCII PLY file written for a
    cloud. Floating-point numbers are rendered by Rust's `{}` formatting,
    which is outside this model and enters as the two formatters below. */
module Ply {
  import opened Wrappers
  import opened Seqs
  import opened Text
  import opened Reconstruction

  /** Colour written for an uncoloured point when the file has colour columns. */
  const DefaultColor: Rgb := Rgb(128, 128, 128)

  /** Whether the count of coloured points is positive, that is, whether
      any point carries a colour; the file has colour columns exactly then. */
  function HasColor(points: seq<Point3D>): (r: bool)
    ensures r <==> exists i :: 0 <= i < |points| && points[i].color.Some?
  {
    var colored := Filter(points, (p: Point3D) => p.color.Some?);
    assert forall i :: 0 <= i < |points| && points[i].color.Some? ==> points[i] in colored;
    |colored| > 0
  }

  /** The header for `count` vertices, with or without colour properties. */
  function Header(count: nat, hasColor: bool): seq<string>
  {
    ["ply", "format ascii 1.0", "element vertex " + DecimalNat(count),
     "property float x", "property float y", "property float z"]
    + (if hasColor then ["property uchar red", "property uchar green", "property uchar blue"] else [])
    + ["property float confidence", "end_header"]
  }

  /** The fields of one vertex line. */
  function VertexFields(p: Point3D, hasColor: bool, showF64: real -> string, showF32: real -> string): seq<string>
  {
    if hasColor then
      var c := if p.color.Some? then p.color.value else DefaultColor;
      [showF64(p.x), showF64(p.y), showF64(p.z),
       DecimalNat(c.r as nat), DecimalNat(c.g as nat), DecimalNat(c.b as nat), showF32(p.confidence)]
    else
      [showF64(p.x), showF64(p.y), showF64(p.z), showF32(p.confidence)]
  }

  function VertexLine(p: Point3D, hasColor: bool, showF64: real -> string, showF32: real -> string): string
  {
    Join(VertexFields(p, hasColor, showF64, showF32), ' ')
  }

  /** One vertex line for each of the first `n` points, in order. */
  function VertexLines(points: seq<Point3D>, n: nat, hasColor: bool, showF64: real -> string, showF32: real -> string)
    : (r: seq<string>)
    requires n <= |points|
    ensures |r| == n
    ensures forall i :: 0 <= i < n ==> r[i] == VertexLine(points[i], hasColor, showF64, showF32)
  {
    if n == 0 then []
    else VertexLines(points, n - 1, hasColor, showF64, showF32) + [VertexLine(points[n - 1], hasColor, showF64, showF32)]
  }

  /** Every line of the file for `points`: header, then one line per point. */
  function PlyLines(points: seq<Point3D>, showF64: real -> string, showF32: real -> string): seq<string>
  {
    Header(|points|, HasColor(points)) + VertexLines(points, |points|, HasColor(points), showF64, showF32)
  }

  /** The header writes of `save_point_cloud`, one line each. */
  method WriteHeader(count: nat, hasColor: bool) returns (lines: seq<string>)
    ensures lines == Header(count, hasColor)
  {
    lines := ["ply", "format ascii 1.0", "element vertex " + DecimalNat(count),
              "property float x", "property float y", "property float z"];
    if hasColor {
      lines := lines + ["property uchar red", "property uchar green", "property uchar blue"];
    }
    lines := lines + ["property float confidence"];
    lines := lines + ["end_header"];
  }

  /** `save_point_cloud`: decides once whether the file has colour columns,
      writes the header, then one line per point in order. */
  method SavePointCloud(cloud: PointCloud, showF64: real -> string, showF32: real -> string)
    returns (lines: seq<string>)
    ensures lines == PlyLines(cloud.points, showF64, showF32)
  {
    var points := cloud.points;
    var hasColor := HasColor(points);
    lines := WriteHeader(|points|, hasColor);
    ghost var header := lines;
    for i := 0 to |points|
      invariant lines == header + VertexLines(points, i, hasColor, showF64, showF32)
    {
      var line := WriteVertex(points[i], hasColor, showF64, showF32);
      lines := lines + [line];
    }
  }

  /** The line `save_point_cloud` writes for one point: seven fields with
      the colour (grey when the point has none) or four without. */
  method WriteVertex(point: Point3D, hasColor: bool, showF64: real -> string, showF32: real -> string)
    returns (line: string)
    ensures line == VertexLine(point, hasColor, showF64, showF32)
  {
    if hasColor {
      var c := if point.color.Some? then point.color.value else DefaultColor;
      var fields := [showF64(point.x), showF64(point.y), showF64(point.z),
                     DecimalNat(c.r as nat), DecimalNat(c.g as nat), DecimalNat(c.b as nat),
                     showF32(point.confidence)];
      assert fields == VertexFields(point, hasColor, showF64, showF32);
      line := Join(fields, ' ');
    } else {
      var fields := [showF64(point.x), showF64(point.y), showF64(point.z), showF32(point.confidence)];
      assert fields == VertexFields(point, hasColor, showF64, showF32);
      line := Join(fields, ' ');
    }
  }

  // ---------------------------------------------------------------------
  // What a reader of the file can rely on

  /** The header lines between the vertex count and "end_header". */
  function PropertyLines(header: seq<string>): seq<string>
    requires |header| >= 4
  {
    header[3..|header| - 1]
  }

  predicate IsPropertyLine(line: string)
  {
    |line| >= 9 && line[..9] == "property "
  }

  /** A formatter whose outputs never contain a space. */
  ghost predicate SpaceFree(show: real -> string)
  {
    forall v :: ' ' !in show(v)
  }

  /** The header ends its property list with "end_header", declares as many
      vertices as the cloud has points, and the file has one line per point
      after it. */
  lemma PlyLayout(points: seq<Point3D>, showF64: real -> string, showF32: real -> string)
    ensures var lines := PlyLines(points, showF64, showF32);
      var h := |Header(|points|, HasColor(points))|;
      && h == (if HasColor(points) then 11 else 8)
      && |lines| == h + |points|
      && lines[h - 1] == "end_header"
      && lines[0] == "ply"
      && lines[2][..15] == "element vertex "
      && ParseNat(lines[2][15..]) == Some(|points|)
  {
    ParseDecimal(|points|);
    var line := "element vertex " + DecimalNat(|points|);
    assert line[15..] == DecimalNat(|points|);
  }

  /** The header declares 7 properties with colour and 4 without. */
  lemma HeaderProperties(count: nat, hasColor: bool)
    ensures var props := PropertyLines(Header(count, hasColor));
      && |props| == (if hasColor then 7 else 4)
      && forall k :: 0 <= k < |props| ==> IsPropertyLine(props[k])
  {
  }

  /** Every line between the vertex count and "end_header" declares a
      property, and each vertex line has exactly as many space-separated
      fields as there are such lines. */
  lemma FieldsMatchProperties(points: seq<Point3D>, showF64: real -> string, showF32: real -> string, i: nat)
    requires i < |points|
    requires SpaceFree(showF64) && SpaceFree(showF32)
    ensures var hasColor := HasColor(points);
      var props := PropertyLines(Header(|points|, hasColor));
      && (forall k :: 0 <= k < |props| ==> IsPropertyLine(props[k]))
      && |Split(VertexLine(points[i], hasColor, showF64, showF32), ' ')| == |props|
  {
    var hasColor := HasColor(points);
    HeaderProperties(|points|, hasColor);
    var fields := VertexFields(points[i], hasColor, showF64, showF32);
    if hasColor {
      ColorFieldsParse(points[i], showF64, showF32);
    } else {
      SplitJoin(fields, ' ');
    }
  }

  /** Reading a vertex line's colour fields gives back the point's colour,
      or the grey default for a point without one. */
  lemma ColorFieldsParse(p: Point3D, showF64: real -> string, showF32: real -> string)
    requires SpaceFree(showF64) && SpaceFree(showF32)
    ensures var f := Split(VertexLine(p, true, showF64, showF32), ' ');
      var c := if p.color.Some? then p.color.value else DefaultColor;
      && |f| == 7
      && ParseNat(f[3]) == Some(c.r as nat)
      && ParseNat(f[4]) == Some(c.g as nat)
      && ParseNat(f[5]) == Some(c.b as nat)
      && f[0] == showF64(p.x) && f[1] == showF64(p.y) && f[2] == showF64(p.z)
      && f[6] == showF32(p.confidence)
  {
    var c := if p.color.Some? then p.color.value else DefaultColor;
    var fields := VertexFields(p, true, showF64, showF32);
    NoSpaceInDecimal(c.r as nat);
    NoSpaceInDecimal(c.g as nat);
    NoSpaceInDecimal(c.b as nat);
    SplitJoin(fields, ' ');
    ParseDecimal(c.r as nat);
    ParseDecimal(c.g as nat);
    ParseDecimal(c.b as nat);
  }

  lemma NoSpaceInDecimal(n: nat)
    ensures ' ' !in DecimalNat(n)
  {
  }
}

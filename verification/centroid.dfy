/** The GeoJSON centroid of docs/src/layouts/utils.ts: a recursive dispatch
    over the object types of RFC 7946 (section 3), where every geometry
    helper returns the unweighted mean of a chosen list of positions and the
    collections return the unweighted mean of their members' centroids.

    A centroid is `Some(position)` or `None`, which stands for `[NaN, NaN]`
    (the mean of an empty list, `0 / 0`). A thrown `Error` is `Throws`. */
module Centroid {
  import opened Common

  /** A position `[longitude, latitude]` (section 3.1.1 of RFC 7946). */
  datatype Position = Position(lon: real, lat: real)

  /** A GeoJSON object by its `type`. A member, a feature's geometry or the
      argument itself may be `null` or `undefined`, or an object without a
      truthy `type`: that is `None`. `Other` is an object whose `type` is none
      of the nine names below. */
  datatype GeoJson =
    | Point(coordinates: Position)
    | MultiPoint(points: seq<Position>)
    | LineString(line: seq<Position>)
    | MultiLineString(lines: seq<seq<Position>>)
    | Polygon(rings: seq<seq<Position>>)
    | MultiPolygon(polygons: seq<seq<seq<Position>>>)
    | GeometryCollection(geometries: seq<Option<GeoJson>>)
    | Feature(geometry: Option<GeoJson>)
    | FeatureCollection(features: seq<Option<GeoJson>>)   // each feature's geometry
    | Other(typeName: string)

  datatype Error =
    | InvalidObject               // 'Invalid GeoJSON object'
    | UnsupportedType(name: string)  // 'Unsupported GeoJSON type: <name>'
    | TypeError                   // reading a property of undefined

  datatype Result<T> = Ok(value: T) | Throws(error: Error)

  function Lon(p: Position): real { p.lon }
  function Lat(p: Position): real { p.lat }

  /** The sum of one coordinate over the positions, as a running `+=`
      builds it. */
  function Sum(ps: seq<Position>, coord: Position -> real): real {
    if ps == [] then 0.0 else Sum(ps[..|ps| - 1], coord) + coord(ps[|ps| - 1])
  }

  /** The unweighted mean of the positions, `[x / len, y / len]`; None
      (`[NaN, NaN]`) for the empty list. */
  function Mean(ps: seq<Position>): (c: Option<Position>)
    ensures c.None? <==> ps == []
  {
    if ps == [] then None
    else Some(Position(Sum(ps, Lon) / |ps| as real, Sum(ps, Lat) / |ps| as real))
  }

  /** `coordinates.flat()`: the lists one after the other. */
  function Flatten(lists: seq<seq<Position>>): (r: seq<Position>)
    ensures forall p :: p in r <==> exists i :: 0 <= i < |lists| && p in lists[i]
  {
    if lists == [] then []
    else
      var init := lists[..|lists| - 1];
      assert forall i :: 0 <= i < |init| ==> init[i] == lists[i];
      Flatten(init) + lists[|lists| - 1]
  }

  /** `flat()` of two lists of lines is the `flat()` of each, one after the
      other. */
  lemma {:induction false} FlattenConcat(a: seq<seq<Position>>, b: seq<seq<Position>>)
    ensures Flatten(a + b) == Flatten(a) + Flatten(b)
  {
    if b == [] {
      assert a + b == a;
    } else {
      var init := b[..|b| - 1];
      assert (a + b)[..|a + b| - 1] == a + init;
      FlattenConcat(a, init);
    }
  }

  /** `flat()` keeps every position of every line, repeats included: one
      line flattens to itself, and the length is the sum of the lengths. */
  lemma FlattenKeepsRepeats(lists: seq<seq<Position>>, l: seq<Position>)
    ensures Flatten([l]) == l
    ensures |Flatten(lists + [l])| == |Flatten(lists)| + |l|
    ensures multiset(Flatten(lists + [l])) == multiset(Flatten(lists)) + multiset(l)
  {
    FlattenConcat(lists, [l]);
    assert Flatten([l]) == Flatten([]) + l;
  }

  /** `coordinates.flatMap(poly => poly[0])` for polygons that all have an
      outer ring: the outer rings one after the other. */
  function OuterRings(polygons: seq<seq<seq<Position>>>): seq<Position>
    requires forall i :: 0 <= i < |polygons| ==> polygons[i] != []
  {
    if polygons == [] then []
    else OuterRings(polygons[..|polygons| - 1]) + polygons[|polygons| - 1][0]
  }

  /** The numeric centroids among `cs`, in order. */
  function Known(cs: seq<Option<Position>>): (r: seq<Position>)
    ensures |r| <= |cs|
    ensures |r| == |cs| <==> forall i :: 0 <= i < |cs| ==> cs[i].Some?
  {
    if cs == [] then []
    else
      var init := cs[..|cs| - 1];
      assert forall i :: 0 <= i < |init| ==> init[i] == cs[i];
      Known(init) + (if cs[|cs| - 1].Some? then [cs[|cs| - 1].value] else [])
  }

  /** Lines 92-101 and 107-116: the mean of the member centroids; a single
      `[NaN, NaN]` member makes the sums, and so the mean, NaN. */
  function MeanOfCentroids(cs: seq<Option<Position>>): (c: Option<Position>)
    ensures c.Some? ==> forall i :: 0 <= i < |cs| ==> cs[i].Some?
  {
    if |Known(cs)| < |cs| then None else Mean(Known(cs))
  }

  /** `members.map(calculateGeoJsonCentroid)`: every centroid in order, or
      the error of the first member that throws. */
  function Gather(rs: seq<Result<Option<Position>>>): (r: Result<seq<Option<Position>>>)
    ensures r.Ok? ==> |r.value| == |rs|
  {
    if rs == [] then Ok([])
    else if rs[0].Throws? then Throws(rs[0].error)
    else
      match Gather(rs[1..])
      case Throws(e) => Throws(e)
      case Ok(cs) => Ok([rs[0].value] + cs)
  }

  /** `calculateGeoJsonCentroid` of lines 8-37 with its helpers. */
  function CentroidOf(g: Option<GeoJson>): (r: Result<Option<Position>>)
    ensures g.Some? && (g.value.Point? || g.value.MultiPoint? || g.value.LineString? || g.value.MultiLineString?) ==>
      r.Ok?
    ensures g.Some? && g.value.Point? ==> r.value.Some?
    decreases g
  {
    match g
    case None => Throws(InvalidObject)
    case Some(Point(p)) => Ok(Some(p))
    case Some(MultiPoint(ps)) => Ok(Mean(ps))
    case Some(LineString(ps)) => Ok(Mean(ps))
    case Some(MultiLineString(lines)) => Ok(Mean(Flatten(lines)))
    case Some(Polygon(rings)) => if rings == [] then Throws(TypeError) else Ok(Mean(rings[0]))
    case Some(MultiPolygon(polygons)) =>
      if exists i :: 0 <= i < |polygons| && polygons[i] == [] then Throws(TypeError)
      else Ok(Mean(OuterRings(polygons)))
    case Some(GeometryCollection(gs)) =>
      CollectionCentroid(seq(|gs|, i requires 0 <= i < |gs| => CentroidOf(gs[i])))
    case Some(Feature(geometry)) => CentroidOf(geometry)
    case Some(FeatureCollection(fs)) =>
      CollectionCentroid(seq(|fs|, i requires 0 <= i < |fs| => CentroidOf(fs[i])))
    case Some(Other(t)) => Throws(UnsupportedType(t))
  }

  /** A collection's centroid from its members' results. */
  function CollectionCentroid(rs: seq<Result<Option<Position>>>): (r: Result<Option<Position>>)
    ensures r.Ok? <==> forall i :: 0 <= i < |rs| ==> rs[i].Ok?
    ensures r.Ok? && r.value.Some? ==> rs != [] && forall i :: 0 <= i < |rs| ==> rs[i].value.Some?
  {
    GatherThrowsIff(rs);
    match Gather(rs)
    case Throws(e) => Throws(e)
    case Ok(cs) =>
      GatherOk(rs);
      Ok(MeanOfCentroids(cs))
  }

  // ---------------------------------------------------------------------
  // The averaging loops

  lemma SumSnoc(ps: seq<Position>, p: Position, coord: Position -> real)
    ensures Sum(ps + [p], coord) == Sum(ps, coord) + coord(p)
  {
    assert (ps + [p])[..|ps|] == ps;
  }

  /** The loop of lines 47-56 (also 62-71 and 77-86): sum the longitudes and
      the latitudes, then divide by the length. */
  method AveragePositions(coords: seq<Position>) returns (c: Option<Position>)
    ensures c == Mean(coords)
  {
    var x, y := 0.0, 0.0;
    for i := 0 to |coords|
      invariant x == Sum(coords[..i], Lon) && y == Sum(coords[..i], Lat)
    {
      assert coords[..i + 1] == coords[..i] + [coords[i]];
      SumSnoc(coords[..i], coords[i], Lon);
      SumSnoc(coords[..i], coords[i], Lat);
      x := x + coords[i].lon;
      y := y + coords[i].lat;
    }
    assert coords[..|coords|] == coords;
    if |coords| == 0 {
      // 0 / 0
      return None;
    }
    c := Some(Position(x / |coords| as real, y / |coords| as real));
  }

  lemma KnownSnoc(cs: seq<Option<Position>>, i: nat)
    requires i < |cs|
    ensures Known(cs[..i + 1]) == Known(cs[..i]) + (if cs[i].Some? then [cs[i].value] else [])
  {
    assert cs[..i + 1][..i] == cs[..i];
  }

  /** The loop of lines 92-101 (also 107-116) over the member centroids: a
      NaN member turns both sums into NaN for good. */
  method AverageCentroids(centroids: seq<Option<Position>>) returns (c: Option<Position>)
    ensures c == MeanOfCentroids(centroids)
  {
    var x, y := 0.0, 0.0;
    var isNaN := false;
    for i := 0 to |centroids|
      invariant isNaN <==> |Known(centroids[..i])| < i
      invariant x == Sum(Known(centroids[..i]), Lon) && y == Sum(Known(centroids[..i]), Lat)
    {
      KnownSnoc(centroids, i);
      match centroids[i]
      case None =>
        assert Known(centroids[..i + 1]) == Known(centroids[..i]);
        isNaN := true;
      case Some(p) =>
        assert Known(centroids[..i + 1]) == Known(centroids[..i]) + [p];
        SumSnoc(Known(centroids[..i]), p, Lon);
        SumSnoc(Known(centroids[..i]), p, Lat);
        x := x + p.lon;
        y := y + p.lat;
    }
    assert centroids[..|centroids|] == centroids;
    if isNaN || |centroids| == 0 {
      return None;
    }
    c := Some(Position(x / |centroids| as real, y / |centroids| as real));
  }

  /** `coordinates.flatMap(poly => poly[0])` of line 76; None when a polygon
      has no ring (its `poly[0]` is undefined, and reading `undefined[0]` in
      the loop throws). */
  method OuterRingsOf(polygons: seq<seq<seq<Position>>>) returns (r: Option<seq<Position>>)
    ensures r.None? <==> exists i :: 0 <= i < |polygons| && polygons[i] == []
    ensures r.Some? ==> r.value == OuterRings(polygons)
  {
    var coords: seq<Position> := [];
    for i := 0 to |polygons|
      invariant forall j :: 0 <= j < i ==> polygons[j] != []
      invariant coords == OuterRings(polygons[..i])
    {
      if polygons[i] == [] {
        return None;
      }
      assert polygons[..i + 1][..i] == polygons[..i];
      coords := coords + polygons[i][0];
    }
    assert polygons[..|polygons|] == polygons;
    r := Some(coords);
  }

  /** `calculateGeoJsonCentroid` (lines 8-37) and its helpers (lines
      40-117): the dispatch on `type`, each helper's averaging loop, and the
      recursion of the collections through `map`. */
  method ComputeCentroid(g: Option<GeoJson>) returns (r: Result<Option<Position>>)
    ensures r == CentroidOf(g)
    decreases g
  {
    if g.None? {
      return Throws(InvalidObject);
    }
    match g.value
    case Point(p) =>
      r := Ok(Some(p));
    case MultiPoint(ps) =>
      var c := AveragePositions(ps);
      r := Ok(c);
    case LineString(ps) =>
      var c := AveragePositions(ps);
      r := Ok(c);
    case MultiLineString(lines) =>
      var c := AveragePositions(Flatten(lines));
      r := Ok(c);
    case Polygon(rings) =>
      if rings == [] {
        return Throws(TypeError);
      }
      var c := AveragePositions(rings[0]);
      r := Ok(c);
    case MultiPolygon(polygons) =>
      var coords := OuterRingsOf(polygons);
      if coords.None? {
        return Throws(TypeError);
      }
      var c := AveragePositions(coords.value);
      r := Ok(c);
    case GeometryCollection(gs) =>
      r := ComputeCollection(g, gs);
    case Feature(geometry) =>
      r := ComputeCentroid(geometry);
    case FeatureCollection(fs) =>
      r := ComputeCollection(g, fs);
    case Other(t) =>
      r := Throws(UnsupportedType(t));
  }

  /** When every member succeeds, the centroids are theirs, in order. */
  lemma {:induction false} GatherOk(rs: seq<Result<Option<Position>>>)
    requires forall j :: 0 <= j < |rs| ==> rs[j].Ok?
    ensures Gather(rs).Ok?
    ensures forall j :: 0 <= j < |rs| ==> Gather(rs).value[j] == rs[j].value
  {
    if rs != [] {
      GatherOk(rs[1..]);
      forall j | 0 < j < |rs| ensures Gather(rs).value[j] == rs[j].value {
        assert rs[1..][j - 1] == rs[j];
      }
    }
  }

  /** The first member that throws decides the error. */
  lemma {:induction false} GatherThrows(rs: seq<Result<Option<Position>>>, k: nat)
    requires k < |rs| && rs[k].Throws?
    requires forall j :: 0 <= j < k ==> rs[j].Ok?
    ensures Gather(rs) == Throws(rs[k].error)
  {
    if k > 0 {
      GatherThrows(rs[1..], k - 1);
    }
  }

  /** The `map` of lines 91 and 106 followed by the averaging loop; `whole`
      is the collection itself, so that the recursion goes down. */
  method ComputeCollection(ghost whole: Option<GeoJson>, members: seq<Option<GeoJson>>)
    returns (r: Result<Option<Position>>)
    requires whole.Some? && (whole.value == GeometryCollection(members) || whole.value == FeatureCollection(members))
    ensures r == CollectionCentroid(seq(|members|, i requires 0 <= i < |members| => CentroidOf(members[i])))
    decreases whole, 0
  {
    ghost var rs := seq(|members|, i requires 0 <= i < |members| => CentroidOf(members[i]));
    var centroids: seq<Option<Position>> := [];
    for i := 0 to |members|
      invariant forall j :: 0 <= j < i ==> rs[j].Ok?
      invariant |centroids| == i && forall j :: 0 <= j < i ==> centroids[j] == rs[j].value
    {
      var c := ComputeCentroid(members[i]);
      if c.Throws? {
        GatherThrows(rs, i);
        return Throws(c.error);
      }
      centroids := centroids + [c.value];
    }
    GatherOk(rs);
    assert centroids == Gather(rs).value;
    var c := AverageCentroids(centroids);
    r := Ok(c);
  }

  // ---------------------------------------------------------------------
  // Properties

  /** A position inside the box [west, east] x [south, north]. */
  predicate InBox(p: Position, west: real, east: real, south: real, north: real) {
    west <= p.lon <= east && south <= p.lat <= north
  }

  /** The sum of n coordinates between lo and hi lies between n * lo and
      n * hi. */
  lemma {:induction false} SumBounds(ps: seq<Position>, coord: Position -> real, lo: real, hi: real)
    requires forall i :: 0 <= i < |ps| ==> lo <= coord(ps[i]) <= hi
    ensures |ps| as real * lo <= Sum(ps, coord) <= |ps| as real * hi
  {
    if ps != [] {
      SumBounds(ps[..|ps| - 1], coord, lo, hi);
    }
  }

  lemma DivideBounds(s: real, n: real, lo: real, hi: real)
    requires n > 0.0 && n * lo <= s <= n * hi
    ensures lo <= s / n <= hi
  {
    assert s / n * n == s;
  }

  /** Lines 51-56: the mean of a non-empty list of positions lies in every
      box that holds them all, in particular in their bounding box. */
  lemma MeanInBox(ps: seq<Position>, west: real, east: real, south: real, north: real)
    requires ps != []
    requires forall i :: 0 <= i < |ps| ==> InBox(ps[i], west, east, south, north)
    ensures InBox(Mean(ps).value, west, east, south, north)
  {
    var n := |ps| as real;
    var lon, lat := Sum(ps, Lon), Sum(ps, Lat);
    assert Mean(ps).value == Position(lon / n, lat / n);
    SumBounds(ps, Lon, west, east);
    DivideBounds(lon, n, west, east);
    SumBounds(ps, Lat, south, north);
    DivideBounds(lat, n, south, north);
  }

  /** An object that nothing inside makes throw: no `null` or typeless
      object, no unknown type, a ring in every polygon. */
  predicate Computable(g: Option<GeoJson>)
    decreases g
  {
    match g
    case None => false
    case Some(Polygon(rings)) => rings != []
    case Some(MultiPolygon(polygons)) => forall i :: 0 <= i < |polygons| ==> polygons[i] != []
    case Some(GeometryCollection(gs)) => forall i :: 0 <= i < |gs| ==> Computable(gs[i])
    case Some(Feature(geometry)) => Computable(geometry)
    case Some(FeatureCollection(fs)) => forall i :: 0 <= i < |fs| ==> Computable(fs[i])
    case Some(Other(_)) => false
    case Some(_) => true
  }

  lemma {:induction false} GatherThrowsIff(rs: seq<Result<Option<Position>>>)
    ensures Gather(rs).Throws? <==> exists j :: 0 <= j < |rs| && rs[j].Throws?
  {
    if rs != [] {
      GatherThrowsIff(rs[1..]);
      if exists j :: 0 <= j < |rs| && rs[j].Throws? {
        var j :| 0 <= j < |rs| && rs[j].Throws?;
        if j > 0 {
          assert rs[1..][j - 1].Throws?;
        }
      }
    }
  }

  /** Lines 9-11, 26-35 and the reads of `coordinates[0]` and `poly[0]`:
      the centroid throws exactly when a `null` or typeless object, an
      unknown type or a polygon without rings occurs anywhere inside. */
  lemma {:induction false} ThrowsExactlyWhenNotComputable(g: Option<GeoJson>)
    ensures CentroidOf(g).Throws? <==> !Computable(g)
    decreases g
  {
    match g
    case None =>
    case Some(GeometryCollection(gs)) =>
      var rs := seq(|gs|, i requires 0 <= i < |gs| => CentroidOf(gs[i]));
      forall i | 0 <= i < |gs| ensures rs[i].Throws? <==> !Computable(gs[i]) {
        ThrowsExactlyWhenNotComputable(gs[i]);
      }
      GatherThrowsIff(rs);
    case Some(Feature(geometry)) =>
      ThrowsExactlyWhenNotComputable(geometry);
    case Some(FeatureCollection(fs)) =>
      var rs := seq(|fs|, i requires 0 <= i < |fs| => CentroidOf(fs[i]));
      forall i | 0 <= i < |fs| ensures rs[i].Throws? <==> !Computable(fs[i]) {
        ThrowsExactlyWhenNotComputable(fs[i]);
      }
      GatherThrowsIff(rs);
    case Some(_) =>
  }

  /** Lines 14-18 and 40-57: a point is its own centroid; a line string
      or a multi-point with positions has the mean of its positions, which
      lies in every box that holds them; an empty one gives `[NaN, NaN]`. */
  lemma LineCentroid(p: Position, ps: seq<Position>, west: real, east: real, south: real, north: real)
    requires forall i :: 0 <= i < |ps| ==> InBox(ps[i], west, east, south, north)
    ensures CentroidOf(Some(Point(p))) == Ok(Some(p))
    ensures CentroidOf(Some(LineString(ps))) == CentroidOf(Some(MultiPoint(ps))) == Ok(Mean(ps))
    ensures ps == [] ==> CentroidOf(Some(LineString(ps))) == Ok(None)
    ensures ps != [] ==> InBox(CentroidOf(Some(LineString(ps))).value.value, west, east, south, north)
  {
    if ps != [] {
      MeanInBox(ps, west, east, south, north);
    }
  }

  /** Lines 45-57: a multi-line string's centroid is the mean of all its
      lines' positions together, so it lies in every box that holds them. */
  lemma MultiLineStringInBox(lines: seq<seq<Position>>, west: real, east: real, south: real, north: real)
    requires forall i, j :: 0 <= i < |lines| && 0 <= j < |lines[i]| ==> InBox(lines[i][j], west, east, south, north)
    requires exists i :: 0 <= i < |lines| && lines[i] != []
    ensures CentroidOf(Some(MultiLineString(lines))).value.Some?
    ensures InBox(CentroidOf(Some(MultiLineString(lines))).value.value, west, east, south, north)
  {
    var ps := Flatten(lines);
    var i :| 0 <= i < |lines| && lines[i] != [];
    assert lines[i][0] in ps;
    forall k | 0 <= k < |ps| ensures InBox(ps[k], west, east, south, north) {
      assert ps[k] in ps;
    }
    MeanInBox(ps, west, east, south, north);
  }

  /** Lines 60-72: a polygon's centroid is the mean of its outer ring
      (closing vertex included) whatever its holes are. */
  lemma PolygonIgnoresHoles(outer: seq<Position>, holes: seq<seq<Position>>, holes': seq<seq<Position>>)
    ensures CentroidOf(Some(Polygon([outer] + holes))) == Ok(Mean(outer))
    ensures CentroidOf(Some(Polygon([outer] + holes))) == CentroidOf(Some(Polygon([outer] + holes')))
  {
  }

  lemma {:induction false} OuterRingsOfOuters(polygons: seq<seq<seq<Position>>>, polygons': seq<seq<seq<Position>>>)
    requires |polygons| == |polygons'|
    requires forall i :: 0 <= i < |polygons| ==> polygons[i] != [] && polygons'[i] != [] && polygons[i][0] == polygons'[i][0]
    ensures OuterRings(polygons) == OuterRings(polygons')
  {
    if polygons != [] {
      OuterRingsOfOuters(polygons[..|polygons| - 1], polygons'[..|polygons| - 1]);
    }
  }

  /** Lines 75-87: a multi-polygon's centroid depends only on the outer
      rings of its polygons; holes are ignored. */
  lemma MultiPolygonIgnoresHoles(polygons: seq<seq<seq<Position>>>, polygons': seq<seq<seq<Position>>>)
    requires |polygons| == |polygons'|
    requires forall i :: 0 <= i < |polygons| ==> polygons[i] != [] && polygons'[i] != [] && polygons[i][0] == polygons'[i][0]
    ensures CentroidOf(Some(MultiPolygon(polygons))) == CentroidOf(Some(MultiPolygon(polygons')))
    ensures CentroidOf(Some(MultiPolygon(polygons))) == Ok(Mean(OuterRings(polygons)))
  {
    OuterRingsOfOuters(polygons, polygons');
  }

  /** When every centroid is numeric, `Known` keeps them all, in order. */
  lemma {:induction false} KnownAll(cs: seq<Option<Position>>)
    requires forall i :: 0 <= i < |cs| ==> cs[i].Some?
    ensures |Known(cs)| == |cs|
    ensures forall i :: 0 <= i < |cs| ==> Known(cs)[i] == cs[i].value
  {
    if cs != [] {
      KnownAll(cs[..|cs| - 1]);
    }
  }

  /** Lines 26-27 and 90-117: a feature's centroid is its geometry's, and
      when every member of a non-empty collection has a numeric centroid in
      a box, so has the collection. */
  lemma CollectionInBox(fs: seq<Option<GeoJson>>, west: real, east: real, south: real, north: real)
    requires fs != []
    requires forall i :: 0 <= i < |fs| ==>
      CentroidOf(fs[i]).Ok? && CentroidOf(fs[i]).value.Some? &&
      InBox(CentroidOf(fs[i]).value.value, west, east, south, north)
    ensures forall i :: 0 <= i < |fs| ==> CentroidOf(Some(GeoJson.Feature(fs[i]))) == CentroidOf(fs[i])
    ensures CentroidOf(Some(FeatureCollection(fs))) == CentroidOf(Some(GeometryCollection(fs)))
    ensures CentroidOf(Some(FeatureCollection(fs))).Ok?
    ensures CentroidOf(Some(FeatureCollection(fs))).value.Some?
    ensures InBox(CentroidOf(Some(FeatureCollection(fs))).value.value, west, east, south, north)
  {
    var rs := seq(|fs|, i requires 0 <= i < |fs| => CentroidOf(fs[i]));
    GatherOk(rs);
    var cs := Gather(rs).value;
    KnownAll(cs);
    MeanInBox(Known(cs), west, east, south, north);
  }
}

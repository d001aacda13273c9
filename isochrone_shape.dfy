/**
 * `_isochrone_response_to_shape` of `isochrone.py`: the TravelTime shapes
 * (a shell and holes, vertices as `{lat, lng}` objects) rebuilt as GeoJSON
 * MultiPolygon coordinates: one polygon per shape, the shell as its first
 * (exterior) ring and the holes after it, every position written
 * `[lng, lat]` (sections 3.1.1, 3.1.6 and 3.1.7 of RFC 7946).
 */
module IsochroneShape {

  /** A vertex of a TravelTime shape. */
  datatype Vertex = Vertex(lat: real, lng: real)

  /** One entry of a search result's "shapes". */
  datatype ShapePart = ShapePart(shell: seq<Vertex>, holes: seq<seq<Vertex>>)

  /** A GeoJSON position: longitude first, then latitude. */
  function PositionOf(v: Vertex): (p: seq<real>)
    ensures |p| == 2 && p[0] == v.lng && p[1] == v.lat
  {
    [v.lng, v.lat]
  }

  /** `[[c["lng"], c["lat"]] for c in ring]`. */
  function RingOf(ring: seq<Vertex>): (r: seq<seq<real>>)
    ensures |r| == |ring|
  {
    seq(|ring|, i requires 0 <= i < |ring| => PositionOf(ring[i]))
  }

  /** `rings = [shell]; rings.extend(holes)`. */
  function PolygonOf(part: ShapePart): (p: seq<seq<seq<real>>>)
    ensures |p| == 1 + |part.holes|
  {
    [RingOf(part.shell)] + seq(|part.holes|, j requires 0 <= j < |part.holes| => RingOf(part.holes[j]))
  }

  /** The "coordinates" of the MultiPolygon built from `shapes`. */
  function MultiPolygonOf(shapes: seq<ShapePart>): (m: seq<seq<seq<seq<real>>>>)
    ensures |m| == |shapes|
  {
    seq(|shapes|, k requires 0 <= k < |shapes| => PolygonOf(shapes[k]))
  }

  /**
   * Builds the coordinates by appending one polygon per shape, as the
   * `for _shape in shapes` loop does.
   */
  method ResponseToShape(shapes: seq<ShapePart>) returns (coordinates: seq<seq<seq<seq<real>>>>)
    ensures coordinates == MultiPolygonOf(shapes)
  {
    coordinates := [];
    var k := 0;
    while k < |shapes|
      invariant 0 <= k <= |shapes|
      invariant coordinates == MultiPolygonOf(shapes[..k])
    {
      var part := shapes[k];
      var shell := RingOf(part.shell);
      var holes := seq(|part.holes|, j requires 0 <= j < |part.holes| => RingOf(part.holes[j]));
      var rings := [shell];
      rings := rings + holes;
      coordinates := coordinates + [rings];
      k := k + 1;
      assert shapes[..k] == shapes[..k - 1] + [part];
    }
    assert shapes[..k] == shapes;
  }

  // The inverse direction: reading a MultiPolygon back as TravelTime shapes.

  predicate WellFormedRing(ring: seq<seq<real>>) {
    forall i :: 0 <= i < |ring| ==> |ring[i]| == 2
  }

  /** Every polygon has an exterior ring and every position two numbers. */
  predicate WellFormed(m: seq<seq<seq<seq<real>>>>) {
    forall k :: 0 <= k < |m| ==> |m[k]| >= 1 && forall j :: 0 <= j < |m[k]| ==> WellFormedRing(m[k][j])
  }

  function VertexOf(p: seq<real>): Vertex
    requires |p| == 2
  {
    Vertex(p[1], p[0])
  }

  function VerticesOf(ring: seq<seq<real>>): (vs: seq<Vertex>)
    requires WellFormedRing(ring)
    ensures |vs| == |ring|
  {
    seq(|ring|, i requires 0 <= i < |ring| => VertexOf(ring[i]))
  }

  function PartOf(polygon: seq<seq<seq<real>>>): ShapePart
    requires |polygon| >= 1 && forall j :: 0 <= j < |polygon| ==> WellFormedRing(polygon[j])
  {
    ShapePart(VerticesOf(polygon[0]), seq(|polygon| - 1, j requires 0 <= j < |polygon| - 1 => VerticesOf(polygon[j + 1])))
  }

  function ShapesOf(m: seq<seq<seq<seq<real>>>>): (shapes: seq<ShapePart>)
    requires WellFormed(m)
    ensures |shapes| == |m|
  {
    seq(|m|, k requires 0 <= k < |m| => PartOf(m[k]))
  }

  lemma RingRoundTrip(ring: seq<Vertex>)
    ensures WellFormedRing(RingOf(ring)) && VerticesOf(RingOf(ring)) == ring
  {
  }

  lemma VerticesRoundTrip(ring: seq<seq<real>>)
    requires WellFormedRing(ring)
    ensures RingOf(VerticesOf(ring)) == ring
  {
    var r := RingOf(VerticesOf(ring));
    forall i | 0 <= i < |ring|
      ensures r[i] == ring[i]
    {
      assert |ring[i]| == 2;
      assert ring[i] == [ring[i][0], ring[i][1]];
    }
  }

  lemma PolygonRoundTrip(part: ShapePart)
    ensures |PolygonOf(part)| >= 1
    ensures forall j :: 0 <= j < |PolygonOf(part)| ==> WellFormedRing(PolygonOf(part)[j])
    ensures PartOf(PolygonOf(part)) == part
  {
    var p := PolygonOf(part);
    RingRoundTrip(part.shell);
    forall j | 0 <= j < |part.holes|
      ensures p[j + 1] == RingOf(part.holes[j]) && VerticesOf(p[j + 1]) == part.holes[j]
    {
      RingRoundTrip(part.holes[j]);
    }
    forall j | 0 <= j < |p|
      ensures WellFormedRing(p[j])
    {
      if j > 0 {
        RingRoundTrip(part.holes[j - 1]);
      }
    }
    assert PartOf(p).holes == part.holes;
  }

  /**
   * No vertex is lost, reordered or moved: the shapes can be read back from
   * the MultiPolygon coordinates exactly.
   */
  lemma {:induction false} MultiPolygonRoundTrip(shapes: seq<ShapePart>)
    ensures WellFormed(MultiPolygonOf(shapes))
    ensures ShapesOf(MultiPolygonOf(shapes)) == shapes
  {
    var m := MultiPolygonOf(shapes);
    forall k | 0 <= k < |shapes|
      ensures |m[k]| >= 1 && (forall j :: 0 <= j < |m[k]| ==> WellFormedRing(m[k][j])) && PartOf(m[k]) == shapes[k]
    {
      PolygonRoundTrip(shapes[k]);
    }
  }

  /** Conversely every well-formed MultiPolygon is the image of the shapes read back from it. */
  lemma {:induction false} ShapesRoundTrip(m: seq<seq<seq<seq<real>>>>)
    requires WellFormed(m)
    ensures MultiPolygonOf(ShapesOf(m)) == m
  {
    var back := MultiPolygonOf(ShapesOf(m));
    forall k | 0 <= k < |m|
      ensures back[k] == m[k]
    {
      var part := PartOf(m[k]);
      forall j | 0 <= j < |m[k]|
        ensures PolygonOf(part)[j] == m[k][j]
      {
        VerticesRoundTrip(m[k][j]);
      }
    }
  }
}

/**
 * The investor map's bounds: on mount the boundary GeoJSON is fetched, the
 * first Polygon or MultiPolygon feature is picked, its first ring is taken
 * (after flattening a MultiPolygon one level) and every [lng, lat] position
 * becomes a [lat, lng] pair for Leaflet. Coordinates are only moved, never
 * computed on, so they are kept as opaque `real` values.
 */
module InvestorBounds {
  import opened Wrappers

  /** A GeoJSON position: `[lng, lat]`, possibly with an altitude after them. */
  type Position = seq<real>
  type Ring = seq<Position>

  /** A feature's geometry, by its `type`; any other type keeps only its name. */
  datatype Geometry = Polygon(rings: seq<Ring>) | MultiPolygon(polygons: seq<seq<Ring>>) | OtherGeometry(kind: string)

  /** A feature whose `geometry` may be null. */
  datatype Feature = Feature(geometry: Option<Geometry>)

  /** An element read from a position array: a number, or `undefined` past its end. */
  datatype Coord = Num(v: real) | Undefined

  /** A Leaflet `[lat, lng]` pair. */
  datatype LatLng = LatLng(lat: Coord, lng: Coord)

  /** What the effect ends with: no polygon feature, a thrown TypeError (no first ring), or bounds. */
  datatype Extraction = NoPolygon | Throws | Bounds(latlngs: seq<LatLng>)

  /** The test `find` applies: a geometry that is present and polygonal. */
  predicate Polygonal(f: Feature) {
    f.geometry.Some? && (f.geometry.value.Polygon? || f.geometry.value.MultiPolygon?)
  }

  /** `features.find(Polygonal)`: the index of the first polygonal feature, or None. */
  function FirstPolygonal(features: seq<Feature>): (r: Option<nat>)
    ensures r.Some? ==> r.value < |features| && Polygonal(features[r.value])
    ensures r.Some? ==> forall j | 0 <= j < r.value :: !Polygonal(features[j])
    ensures r.None? <==> forall j | 0 <= j < |features| :: !Polygonal(features[j])
  {
    if features == [] then None
    else if Polygonal(features[0]) then Some(0)
    else
      var rest := FirstPolygonal(features[1..]);
      assert forall j | 1 <= j < |features| :: features[j] == features[1..][j - 1];
      if rest.Some? then Some(rest.value + 1) else None
  }

  /** `polygons.flat()`: the rings of every polygon, polygon after polygon. */
  function Flat(polygons: seq<seq<Ring>>): (rings: seq<Ring>)
    ensures forall i, j | 0 <= i < |polygons| && 0 <= j < |polygons[i]| :: polygons[i][j] in rings
  {
    if polygons == [] then []
    else
      assert forall i | 1 <= i < |polygons| :: polygons[i] == polygons[1..][i - 1];
      polygons[0] + Flat(polygons[1..])
  }

  /** The index of the first polygon with at least one ring, or the number of polygons. */
  function FirstNonEmpty(polygons: seq<seq<Ring>>): (k: nat)
    ensures k <= |polygons|
    ensures forall i | 0 <= i < k :: polygons[i] == []
    ensures k < |polygons| ==> polygons[k] != []
  {
    if polygons == [] then 0
    else if polygons[0] != [] then 0
    else 1 + FirstNonEmpty(polygons[1..])
  }

  /**
   * The first element of the flattened list is the first ring of the first
   * polygon that has one; the list is empty exactly when no polygon has a ring.
   */
  lemma {:induction false} FlatHead(polygons: seq<seq<Ring>>)
    ensures Flat(polygons) == [] <==> FirstNonEmpty(polygons) == |polygons|
    ensures FirstNonEmpty(polygons) < |polygons| ==> Flat(polygons)[0] == polygons[FirstNonEmpty(polygons)][0]
  {
    if polygons != [] && polygons[0] == [] {
      FlatHead(polygons[1..]);
      assert Flat(polygons) == Flat(polygons[1..]);
    }
  }

  /** `coords[0]` after the MultiPolygon flattening; None where it is `undefined`. */
  function FirstRing(g: Geometry): (ring: Option<Ring>)
    requires g.Polygon? || g.MultiPolygon?
    ensures g.Polygon? ==> (ring.None? <==> g.rings == [])
    ensures g.Polygon? && ring.Some? ==> ring.value == g.rings[0]
    ensures g.MultiPolygon? ==> (ring.None? <==> forall i | 0 <= i < |g.polygons| :: g.polygons[i] == [])
    ensures g.MultiPolygon? && ring.Some? ==> ring.value == g.polygons[FirstNonEmpty(g.polygons)][0]
  {
    if g.MultiPolygon? then
      var coords := Flat(g.polygons);
      FlatHead(g.polygons);
      if coords == [] then None else Some(coords[0])
    else if g.rings == [] then None else Some(g.rings[0])
  }

  /** Element `i` of a position array. */
  function At(p: Position, i: nat): Coord {
    if i < |p| then Num(p[i]) else Undefined
  }

  /** `([lng, lat]) => [lat, lng]` over a ring. */
  function Swap(ring: Ring): (latlngs: seq<LatLng>)
    ensures |latlngs| == |ring|
    ensures forall i | 0 <= i < |ring| :: latlngs[i] == LatLng(At(ring[i], 1), At(ring[i], 0))
  {
    if ring == [] then [] else Swap(ring[..|ring| - 1]) + [LatLng(At(ring[|ring| - 1], 1), At(ring[|ring| - 1], 0))]
  }

  /** A [lat, lng] pair of numbers turned back into a GeoJSON position. */
  function Unswap(latlngs: seq<LatLng>): seq<Position>
    requires forall i | 0 <= i < |latlngs| :: latlngs[i].lat.Num? && latlngs[i].lng.Num?
  {
    seq(|latlngs|, i requires 0 <= i < |latlngs| => [latlngs[i].lng.v, latlngs[i].lat.v])
  }

  /** For well-formed two-number positions the swap loses nothing: swapping back gives the ring. */
  lemma SwapRoundTrip(ring: Ring)
    requires forall i | 0 <= i < |ring| :: |ring[i]| == 2
    ensures forall i | 0 <= i < |Swap(ring)| :: Swap(ring)[i].lat.Num? && Swap(ring)[i].lng.Num?
    ensures Unswap(Swap(ring)) == ring
  {
    var s := Swap(ring);
    forall i | 0 <= i < |ring|
      ensures Unswap(s)[i] == ring[i]
    {
      assert ring[i] == [ring[i][0], ring[i][1]];
    }
  }

  /** The `.then(data => ...)` of the effect, on the fetched feature list. */
  function ExtractBounds(features: seq<Feature>): (e: Extraction)
    ensures e.NoPolygon? <==> FirstPolygonal(features).None?
    ensures e.Throws? <==> (FirstPolygonal(features).Some?
                            && FirstRing(features[FirstPolygonal(features).value].geometry.value).None?)
    ensures e.Bounds? ==> e.latlngs == Swap(FirstRing(features[FirstPolygonal(features).value].geometry.value).value)
  {
    match FirstPolygonal(features)
    case None => NoPolygon
    case Some(k) =>
      match FirstRing(features[k].geometry.value)
      case None => Throws
      case Some(ring) => Bounds(Swap(ring))
  }

  /** The map component's `bounds` state. */
  class InvestorMap {
    var bounds: Option<seq<LatLng>>

    constructor ()
      ensures bounds.None?
    {
      bounds := None;
    }

    /**
     * The mount effect: `fetched` is None when the fetch or the JSON parse
     * rejects (there is no catch). Bounds are set only when a first ring was
     * found; otherwise they keep their value.
     */
    method LoadBounds(fetched: Option<seq<Feature>>)
      modifies this
      ensures fetched.Some? && ExtractBounds(fetched.value).Bounds? ==> bounds == Some(ExtractBounds(fetched.value).latlngs)
      ensures fetched.None? || !ExtractBounds(fetched.value).Bounds? ==> bounds == old(bounds)
    {
      if fetched.Some? {
        var e := ExtractBounds(fetched.value);
        if e.Bounds? {
          bounds := Some(e.latlngs);
        }
      }
    }

    /** Whether the map container is given `bounds` and `maxBounds`: any array is truthy, even an empty one. */
    function Bounded(): bool
      reads this
    {
      bounds.Some?
    }
  }

  /**
   * With no polygonal feature, or a polygon without rings, the mounted map
   * ends with no bounds.
   */
  method MountWithoutRing(features: seq<Feature>) returns (bounded: bool)
    requires !ExtractBounds(features).Bounds?
    ensures !bounded
  {
    var m := new InvestorMap();
    m.LoadBounds(Some(features));
    bounded := m.Bounded();
  }

  /**
   * A MultiPolygon whose first polygon has no rings gives the second
   * polygon's outer ring, swapped.
   */
  lemma EmptyFirstPolygonSkipped(outer: Ring, rest: seq<Ring>)
    ensures ExtractBounds([Feature(Some(MultiPolygon([[], [outer] + rest])))]) == Bounds(Swap(outer))
  {
    var polygons := [[], [outer] + rest];
    assert FirstNonEmpty(polygons[1..]) == 0;
    assert FirstPolygonal([Feature(Some(MultiPolygon(polygons)))]) == Some(0);
  }
}

/**
 Geometry processing of `core/geometry.py`: polygon simplification and the
 conversion of the ellipsoidal signed area of a ring into square feet.

 The geometry library calls the processors make (shapely's polygon
 construction and topology-preserving `simplify`, and pyproj's WGS84
 `geometry_area_perimeter`) are not modelled:
 they are carried as function values in `GeoLibrary`, so every statement
 below holds whatever those libraries compute.
 */
module Geometry {

  /** Optional argument; `None` stands for a Python parameter left at its default. */
  datatype Option<T> = None | Some(value: T)

  /** A vertex in decimal degrees. */
  datatype Point = Point(lon: real, lat: real)

  /** The boundary of a polygon, as an ordered vertex list. */
  type Ring = seq<Point>

  /** The foreign calls the processor depends on. */
  datatype GeoLibrary = GeoLibrary(
    // shapely `Polygon(coords)`: the polygon built from a vertex list (it closes an open ring)
    polygon: seq<Point> -> Ring,
    // shapely `Polygon.simplify(tolerance, preserve_topology=True)`
    simplify: (Ring, real) -> Ring,
    // first component of pyproj `Geod(ellps="WGS84").geometry_area_perimeter`, in m²;
    // its sign follows the winding direction of the ring
    signedAreaSqM: Ring -> real
  )

  /** Square feet per square metre, applied once per measurement. */
  const SqFtPerSqM: real := 10.7639

  /** Simplification tolerance, in decimal degrees, when the caller gives none. */
  const DefaultTolerance: real := 0.05

  function Abs(x: real): real {
    if x < 0.0 then -x else x
  }

  /** The ring traversed in the opposite direction. */
  function Reversed(ring: Ring): Ring {
    seq(|ring|, i requires 0 <= i < |ring| => ring[|ring| - 1 - i])
  }

  /** The tolerance actually passed to the simplifier. */
  function EffectiveTolerance(tolerance: Option<real>): real {
    match tolerance
    case None => DefaultTolerance
    case Some(t) => t
  }

  /** `simplify_polygon`: the simplifier's output, returned as is. */
  function SimplifyPolygon(lib: GeoLibrary, polygon: Ring, tolerance: Option<real>): (simplified: Ring)
    ensures tolerance.None? ==> simplified == lib.simplify(polygon, 0.05)
    ensures tolerance.Some? ==> simplified == lib.simplify(polygon, tolerance.value)
  {
    lib.simplify(polygon, EffectiveTolerance(tolerance))
  }

  /** Inverse of the unit conversion: square feet back to square metres. */
  function SqFtToSqM(sqFt: real): real {
    sqFt / SqFtPerSqM
  }

  /**
   `calculate_precision_area`: the magnitude of the signed ellipsoidal area,
   in square feet. The result is never negative, and it is the signed area
   times the factor up to sign, so the factor is applied exactly once.
   */
  function CalculatePrecisionArea(lib: GeoLibrary, poly: Ring): (sqFt: real)
    ensures sqFt >= 0.0
    ensures sqFt == SqFtPerSqM * lib.signedAreaSqM(poly) || sqFt == -(SqFtPerSqM * lib.signedAreaSqM(poly))
    ensures SqFtToSqM(sqFt) == Abs(lib.signedAreaSqM(poly))
  {
    var areaSqM := lib.signedAreaSqM(poly);
    Abs(areaSqM) * SqFtPerSqM
  }

  /** Leaving the tolerance out is the same as passing 0.05. */
  lemma DefaultToleranceIsFiveHundredths(lib: GeoLibrary, polygon: Ring)
    ensures SimplifyPolygon(lib, polygon, None) == SimplifyPolygon(lib, polygon, Some(0.05))
  {
  }

  /**
   Winding invariance: when traversing the ring backwards negates the
   library's signed area, the measured area is the same both ways.
   */
  lemma WindingInvariance(lib: GeoLibrary, ring: Ring)
    requires lib.signedAreaSqM(Reversed(ring)) == -lib.signedAreaSqM(ring)
    ensures CalculatePrecisionArea(lib, Reversed(ring)) == CalculatePrecisionArea(lib, ring)
  {
  }

  /** A ring of zero signed area measures zero square feet, and only such a ring does. */
  lemma ZeroAreaIffZeroSignedArea(lib: GeoLibrary, poly: Ring)
    ensures CalculatePrecisionArea(lib, poly) == 0.0 <==> lib.signedAreaSqM(poly) == 0.0
  {
  }

  /** The measured area grows with the magnitude of the signed area, and only with it. */
  lemma MonotoneInMagnitude(lib: GeoLibrary, p: Ring, q: Ring)
    ensures Abs(lib.signedAreaSqM(p)) <= Abs(lib.signedAreaSqM(q))
        <==> CalculatePrecisionArea(lib, p) <= CalculatePrecisionArea(lib, q)
  {
  }
}

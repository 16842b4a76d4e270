/**
 The combined operation of `src/core/geometry.py`: build the polygon, simplify
 it, and measure the simplified polygon, returning the area together with the
 geometry that was measured.
 */
module WorkerGeometry {
  import opened Geometry

  /**
   `simplify_and_calculate`: the pair (area in ft², simplified ring). The area
   is the one of the simplified ring, never the raw one, and the ring returned
   is exactly the ring that was measured.
   */
  function SimplifyAndCalculate(lib: GeoLibrary, coords: seq<Point>, tolerance: Option<real>): (r: (real, Ring))
    ensures r.1 == lib.simplify(lib.polygon(coords), EffectiveTolerance(tolerance))
    ensures r.0 >= 0.0
    ensures r.0 == SqFtPerSqM * lib.signedAreaSqM(r.1) || r.0 == -(SqFtPerSqM * lib.signedAreaSqM(r.1))
  {
    var poly := lib.polygon(coords);
    var simplified := lib.simplify(poly, EffectiveTolerance(tolerance));
    var areaSqM := lib.signedAreaSqM(simplified);
    (Abs(areaSqM) * SqFtPerSqM, simplified)
  }

  /**
   Both processors agree: the combined operation is polygon construction,
   then `simplify_polygon` and `calculate_precision_area` of `core/geometry.py`.
   */
  lemma AgreesWithCoreProcessor(lib: GeoLibrary, coords: seq<Point>, tolerance: Option<real>)
    ensures SimplifyAndCalculate(lib, coords, tolerance).1
         == SimplifyPolygon(lib, lib.polygon(coords), tolerance)
    ensures SimplifyAndCalculate(lib, coords, tolerance).0
         == CalculatePrecisionArea(lib, SimplifyPolygon(lib, lib.polygon(coords), tolerance))
  {
  }

  /**
   The area reported is not the raw polygon's: whenever simplification changes
   the magnitude of the signed area, the reported area differs from the area of
   the unsimplified polygon.
   */
  lemma MeasuresSimplifiedNotRaw(lib: GeoLibrary, coords: seq<Point>, tolerance: Option<real>)
    requires var raw := lib.polygon(coords);
             Abs(lib.signedAreaSqM(SimplifyPolygon(lib, raw, tolerance))) != Abs(lib.signedAreaSqM(raw))
    ensures SimplifyAndCalculate(lib, coords, tolerance).0 != CalculatePrecisionArea(lib, lib.polygon(coords))
  {
  }

  /** With no tolerance given, simplification uses 0.05. */
  lemma DefaultToleranceApplied(lib: GeoLibrary, coords: seq<Point>)
    ensures SimplifyAndCalculate(lib, coords, None) == SimplifyAndCalculate(lib, coords, Some(0.05))
  {
  }
}

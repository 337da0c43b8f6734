/**
 * weather/rasterOperations.py: the same interpolation as RasterCore, but with defaults
 * (resolution 10, method 'linear') and no resolution check of its own, so a zero step fails
 * inside numpy's arange and a negative step yields an arange that counts down.
 */
module WeatherRaster {
  import opened Wrappers
  import opened RasterCore

  /** The default cell size. */
  const DefaultResolution: real := 10.0

  /** The default interpolation method. */
  const DefaultMethod: string := "linear"

  method InterpolateRaster(dist: (Point, Point) -> real, rbf: (Kernel, seq<Point>, seq<real>, Point) -> real,
                           srid: int, tempStem: string, inputPoints: seq<InputPoint>, values: string,
                           bounds: Bounds, resolution: real := DefaultResolution,
                           methodName: string := DefaultMethod)
    returns (r: Result<(string, Raster), RasterError>)
    requires NonNegativeDistance(dist)
    ensures resolution == 0.0 ==> r == Err(ZeroStep)
    ensures resolution != 0.0 && !HasValue(inputPoints, values) ==> r == Err(MissingValue(values))
    ensures resolution != 0.0 && HasValue(inputPoints, values) && !KnownMethod(methodName) ==>
              r == Err(UnknownMethod(methodName))
    ensures resolution != 0.0 && HasValue(inputPoints, values) && RbfMethod(methodName) ==>
              (r.Ok? <==> RbfSolvable(Points(inputPoints)))
    ensures resolution != 0.0 && HasValue(inputPoints, values) && RbfMethod(methodName) && !RbfSolvable(Points(inputPoints)) ==>
              r == Err(UnsolvableRbf)
    ensures r.Err? && resolution != 0.0 ==>
              || !HasValue(inputPoints, values) || !KnownMethod(methodName)
              || (methodName == "idw" && inputPoints == [])
              || (RbfMethod(methodName) && !RbfSolvable(Points(inputPoints)))
    ensures r.Ok? ==> resolution != 0.0 && HasValue(inputPoints, values) && KnownMethod(methodName)
    ensures r.Ok? ==> WellFormed(r.value, srid, tempStem, bounds, resolution)
    ensures r.Ok? && methodName == "idw" ==> IdwRaster(r.value.1, inputPoints, values, bounds, resolution, dist)
    ensures r.Ok? && methodName == "linear" ==> RbfRaster(r.value.1, Linear, inputPoints, values, bounds, resolution, rbf)
    ensures r.Ok? && methodName == "kriging" ==> RbfRaster(r.value.1, Gaussian, inputPoints, values, bounds, resolution, rbf)
  {
    if resolution == 0.0 {
      return Err(ZeroStep);
    }
    r := BuildRaster(dist, rbf, srid, tempStem, inputPoints, values, bounds, resolution, methodName);
  }

  /**
   * A call that leaves out resolution and method interpolates with the linear kernel at 10 units
   * per cell: once every input point carries the value, it yields a raster exactly when the
   * samples are ones an `Rbf` can be built over, and that raster's pixel size is (10, -10).
   */
  method InterpolateWithDefaults(dist: (Point, Point) -> real, rbf: (Kernel, seq<Point>, seq<real>, Point) -> real,
                                 srid: int, tempStem: string, inputPoints: seq<InputPoint>, values: string,
                                 bounds: Bounds)
    returns (r: Result<(string, Raster), RasterError>)
    requires NonNegativeDistance(dist) && HasValue(inputPoints, values)
    ensures r.Ok? <==> RbfSolvable(Points(inputPoints))
    ensures r.Err? ==> r.error == UnsolvableRbf
    ensures r.Ok? ==> r.value.1.scale == (10.0, -10.0)
    ensures r.Ok? ==> r.value.1.width == ArangeLength(bounds.minX, bounds.maxX, 10.0)
    ensures r.Ok? ==> RbfRaster(r.value.1, Linear, inputPoints, values, bounds, 10.0, rbf)
  {
    r := InterpolateRaster(dist, rbf, srid, tempStem, inputPoints, values, bounds);
  }
}

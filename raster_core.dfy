/**
 * The raster helpers of core/rasterOperations.py: `interpolate_raster` (resolution check, the
 * `arange` mesh, the three interpolation branches and the raster's metadata),
 * `get_raster_field_name`, and the error and path rules of `export_raster_to_cog`.
 *
 * Distances from a cell to the samples (a KD-tree query with Euclidean distance in the source)
 * are given by the parameter `dist`; the two radial-basis-function branches (scipy's `Rbf`) by
 * the parameter `rbf`. The temporary file's random stem is the parameter `tempStem`.
 */
module RasterCore {
  import opened Wrappers
  import opened Text
  import Idw

  datatype Point = Point(x: real, y: real)

  /** One element of `input_points`: its point geometry and its attribute values by name. */
  datatype InputPoint = InputPoint(geom: Point, attrs: map<string, real>)

  /** `(min_x, min_y, max_x, max_y)`. */
  datatype Bounds = Bounds(minX: real, minY: real, maxX: real, maxY: real)

  /** The two kernels handed to scipy's `Rbf`: 'linear' and, under the name 'kriging', 'gaussian'. */
  datatype Kernel = Linear | Gaussian

  /** The GDAL raster built at the end of `interpolate_raster`: one band, north-up affine transform. */
  datatype Raster = Raster(width: nat, height: nat, srid: int, origin: Point,
                           scale: (real, real), nodata: real, band: seq<seq<real>>)

  datatype RasterError =
    | NonPositiveResolution          // ValueError raised before any grid is built
    | ZeroStep                       // numpy's arange refuses a zero step
    | MissingValue(key: string)      // KeyError from p[values]
    | NoSamples                      // the KD-tree is asked for zero neighbours
    | UnknownMethod(name: string)  // grid_values is never assigned
    | UnsolvableRbf                  // scipy's Rbf cannot be built over these samples

  /** The band's no-data sentinel. */
  const NoData: real := -9999.0

  /** The temporary GeoTIFF's suffix. */
  const TifSuffix: string := ".tif"

  function Ceil(x: real): (c: int)
    ensures x <= c as real < x + 1.0
  {
    -((-x).Floor)
  }

  /** `len(np.arange(start, stop, step))`: ceil((stop - start) / step), or 0 when that is negative. */
  function ArangeLength(start: real, stop: real, step: real): nat
    requires step != 0.0
  {
    var c := Ceil((stop - start) / step);
    if c > 0 then c else 0
  }

  /** `np.arange(start, stop, step)`: start, start + step, start + 2 step, ... */
  function Arange(start: real, stop: real, step: real): (xs: seq<real>)
    requires step != 0.0
    ensures |xs| == ArangeLength(start, stop, step)
  {
    seq(ArangeLength(start, stop, step), k requires k >= 0 => start + k as real * step)
  }

  lemma QuotientBelow(k: real, q: real, step: real, diff: real)
    requires step > 0.0 && q * step == diff
    ensures k < q <==> k * step < diff
  {
    if k < q {
      assert (q - k) * step > 0.0;
    } else {
      assert (k - q) * step >= 0.0;
    }
  }

  /**
   * With a positive step, the arange holds exactly the multiples k of the step, counted from 0,
   * for which start + k step is still below stop.
   */
  lemma ArangeLengthCounts(start: real, stop: real, step: real, k: nat)
    requires step > 0.0
    ensures k < ArangeLength(start, stop, step) <==> start + k as real * step < stop
  {
    var q := (stop - start) / step;
    var c := Ceil(q);
    QuotientBelow(k as real, q, step, stop - start);
    if k < ArangeLength(start, stop, step) {
      assert k as real <= (c - 1) as real < q;
    } else {
      assert c <= k;
      assert q <= k as real;
    }
  }

  /** With a negative step the arange counts down, holding exactly the points still above stop. */
  lemma ArangeLengthCountsDown(start: real, stop: real, step: real, k: nat)
    requires step < 0.0
    ensures k < ArangeLength(start, stop, step) <==> start + k as real * step > stop
  {
    var q := (stop - start) / step;
    assert q == (start - stop) / -step;
    QuotientBelow(k as real, q, -step, start - stop);
    var c := Ceil(q);
    if k < ArangeLength(start, stop, step) {
      assert k as real <= (c - 1) as real < q;
    } else {
      assert q <= k as real;
    }
  }

  /** Distances are never negative, as Euclidean distances are. */
  ghost predicate NonNegativeDistance(dist: (Point, Point) -> real)
  {
    forall p, q :: dist(p, q) >= 0.0
  }

  /** The distances the KD-tree query reports from `p` to every sample (order does not matter to the sum). */
  function Distances(p: Point, pts: seq<Point>, dist: (Point, Point) -> real): (d: seq<real>)
    requires NonNegativeDistance(dist)
    ensures |d| == |pts| && Idw.AllNonNegative(d)
  {
    seq(|pts|, k requires 0 <= k < |pts| => dist(p, pts[k]))
  }

  /** The mesh point of cell (i, j): `grid_x[i, j] = xs[j]`, `grid_y[i, j] = ys[i]`. */
  function MeshPoint(xs: seq<real>, ys: seq<real>, i: nat, j: nat): Point
    requires i < |ys| && j < |xs|
  {
    Point(xs[j], ys[i])
  }

  /** The value the IDW branch assigns to cell (i, j). */
  function IdwCell(xs: seq<real>, ys: seq<real>, i: nat, j: nat, pts: seq<Point>, vals: seq<real>,
                   dist: (Point, Point) -> real): real
    requires i < |ys| && j < |xs| && |pts| == |vals| > 0 && NonNegativeDistance(dist)
  {
    Idw.IdwValue(Distances(MeshPoint(xs, ys, i, j), pts, dist), vals)
  }

  /**
   * The IDW branch: visits every (i, j) cell of the mesh-shaped grid and writes the normalised
   * inverse-distance weighted average of all samples into it.
   */
  method FillIdw(grid: array2<real>, xs: seq<real>, ys: seq<real>, pts: seq<Point>, vals: seq<real>,
                 dist: (Point, Point) -> real)
    requires grid.Length0 == |ys| && grid.Length1 == |xs|
    requires |pts| == |vals| > 0 && NonNegativeDistance(dist)
    modifies grid
    ensures forall i, j :: 0 <= i < grid.Length0 && 0 <= j < grid.Length1 ==>
              grid[i, j] == IdwCell(xs, ys, i, j, pts, vals, dist)
  {
    for i := 0 to grid.Length0
      invariant forall i', j :: 0 <= i' < i && 0 <= j < grid.Length1 ==>
                  grid[i', j] == IdwCell(xs, ys, i', j, pts, vals, dist)
    {
      for j := 0 to grid.Length1
        invariant forall i', j' :: 0 <= i' < i && 0 <= j' < grid.Length1 ==>
                    grid[i', j'] == IdwCell(xs, ys, i', j', pts, vals, dist)
        invariant forall j' :: 0 <= j' < j ==> grid[i, j'] == IdwCell(xs, ys, i, j', pts, vals, dist)
      {
        var d := Distances(MeshPoint(xs, ys, i, j), pts, dist);
        var weights := Idw.InverseWeights(d);
        weights := Idw.Normalize(weights);
        grid[i, j] := Idw.Dot(weights, vals);
      }
    }
  }

  /** The band handed to GDAL: the grid's rows, copied. */
  method BandOf(grid: array2<real>) returns (band: seq<seq<real>>)
    ensures |band| == grid.Length0
    ensures forall i :: 0 <= i < |band| ==> |band[i]| == grid.Length1
    ensures forall i, j :: 0 <= i < grid.Length0 && 0 <= j < grid.Length1 ==> band[i][j] == grid[i, j]
  {
    band := [];
    for i := 0 to grid.Length0
      invariant |band| == i
      invariant forall i' :: 0 <= i' < i ==> |band[i']| == grid.Length1
      invariant forall i', j :: 0 <= i' < i && 0 <= j < grid.Length1 ==> band[i'][j] == grid[i', j]
    {
      var row := [];
      for j := 0 to grid.Length1
        invariant |row| == j
        invariant forall j' :: 0 <= j' < j ==> row[j'] == grid[i, j']
      {
        row := row + [grid[i, j]];
      }
      band := band + [row];
    }
  }

  /** `rbf(grid_x, grid_y)` for an `Rbf` built over the samples with the given kernel. */
  function RbfGrid(kernel: Kernel, xs: seq<real>, ys: seq<real>, pts: seq<Point>, vals: seq<real>,
                   rbf: (Kernel, seq<Point>, seq<real>, Point) -> real): (g: seq<seq<real>>)
    ensures |g| == |ys| && forall i :: 0 <= i < |ys| ==> |g[i]| == |xs|
  {
    seq(|ys|, i requires 0 <= i < |ys| =>
      seq(|xs|, j requires 0 <= j < |xs| => rbf(kernel, pts, vals, MeshPoint(xs, ys, i, j))))
  }

  predicate HasValue(inputPoints: seq<InputPoint>, key: string)
  {
    forall k :: 0 <= k < |inputPoints| ==> key in inputPoints[k].attrs
  }

  /** The two methods that build an `Rbf` over the samples before evaluating it on the mesh. */
  predicate RbfMethod(methodName: string)
  {
    methodName == "linear" || methodName == "kriging"
  }

  /**
   * The samples scipy's `Rbf` can be built over: at least two, at pairwise distinct locations.
   * With no sample the bounding box of the samples is undefined, with one (or all at one place)
   * its scale exponent divides by zero, and two samples at one location give the interpolation
   * system two equal rows, so it is singular.
   */
  predicate RbfSolvable(pts: seq<Point>)
  {
    |pts| >= 2 && forall a, b :: 0 <= a < b < |pts| ==> pts[a] != pts[b]
  }

  predicate KnownMethod(methodName: string)
  {
    methodName == "linear" || methodName == "idw" || methodName == "kriging"
  }

  /** What both copies of `interpolate_raster` do once the step is known to be usable. */
  method BuildRaster(dist: (Point, Point) -> real, rbf: (Kernel, seq<Point>, seq<real>, Point) -> real,
                     srid: int, tempStem: string, inputPoints: seq<InputPoint>, values: string,
                     bounds: Bounds, resolution: real, methodName: string)
    returns (r: Result<(string, Raster), RasterError>)
    requires resolution != 0.0 && NonNegativeDistance(dist)
    ensures !HasValue(inputPoints, values) ==> r == Err(MissingValue(values))
    ensures HasValue(inputPoints, values) && !KnownMethod(methodName) ==> r == Err(UnknownMethod(methodName))
    ensures r.Err? && r.error == NoSamples <==>
              HasValue(inputPoints, values) && methodName == "idw" && inputPoints == [] &&
              ArangeLength(bounds.minX, bounds.maxX, resolution) > 0 &&
              ArangeLength(bounds.minY, bounds.maxY, resolution) > 0
    ensures r.Err? && r.error == UnsolvableRbf <==>
              HasValue(inputPoints, values) && RbfMethod(methodName) && !RbfSolvable(Points(inputPoints))
    ensures r.Err? ==>
              || !HasValue(inputPoints, values) || !KnownMethod(methodName)
              || (methodName == "idw" && inputPoints == [])
              || (RbfMethod(methodName) && !RbfSolvable(Points(inputPoints)))
    ensures r.Ok? ==> HasValue(inputPoints, values) && KnownMethod(methodName)
    ensures r.Ok? && RbfMethod(methodName) ==> RbfSolvable(Points(inputPoints))
    ensures r.Ok? ==> WellFormed(r.value, srid, tempStem, bounds, resolution)
    ensures r.Ok? && methodName == "idw" ==> IdwRaster(r.value.1, inputPoints, values, bounds, resolution, dist)
    ensures r.Ok? && methodName == "linear" ==> RbfRaster(r.value.1, Linear, inputPoints, values, bounds, resolution, rbf)
    ensures r.Ok? && methodName == "kriging" ==> RbfRaster(r.value.1, Gaussian, inputPoints, values, bounds, resolution, rbf)
  {
    var xs := Arange(bounds.minX, bounds.maxX, resolution);
    var ys := Arange(bounds.minY, bounds.maxY, resolution);
    if !HasValue(inputPoints, values) {
      return Err(MissingValue(values));
    }
    var pts := seq(|inputPoints|, k requires 0 <= k < |inputPoints| => inputPoints[k].geom);
    var vals := seq(|inputPoints|, k requires 0 <= k < |inputPoints| => inputPoints[k].attrs[values]);
    var band: seq<seq<real>>;
    if RbfMethod(methodName) && !RbfSolvable(pts) {
      return Err(UnsolvableRbf);
    }
    if methodName == "linear" {
      band := RbfGrid(Linear, xs, ys, pts, vals, rbf);
    } else if methodName == "idw" {
      var grid := new real[|ys|, |xs|]((i, j) => 0.0);
      if |ys| > 0 && |xs| > 0 {
        if inputPoints == [] {
          return Err(NoSamples);
        }
        FillIdw(grid, xs, ys, pts, vals, dist);
      }
      band := BandOf(grid);
      assert forall i, j :: 0 <= i < |ys| && 0 <= j < |xs| ==>
        band[i][j] == IdwCell(xs, ys, i, j, Points(inputPoints), Values(inputPoints, values), dist);
    } else if methodName == "kriging" {
      band := RbfGrid(Gaussian, xs, ys, pts, vals, rbf);
    } else {
      return Err(UnknownMethod(methodName));
    }
    var raster := Raster(|xs|, |ys|, srid, Point(bounds.minX, bounds.maxY), (resolution, -resolution), NoData, band);
    r := Ok((tempStem + TifSuffix, raster));
  }

  function Points(inputPoints: seq<InputPoint>): (pts: seq<Point>)
    ensures |pts| == |inputPoints|
  {
    seq(|inputPoints|, k requires 0 <= k < |inputPoints| => inputPoints[k].geom)
  }

  function Values(inputPoints: seq<InputPoint>, key: string): (vals: seq<real>)
    requires HasValue(inputPoints, key)
    ensures |vals| == |inputPoints|
  {
    seq(|inputPoints|, k requires 0 <= k < |inputPoints| => inputPoints[k].attrs[key])
  }

  /**
   * The returned pair: a '.tif' path and a raster whose size is the arange lengths over the bounds,
   * whose origin is the top-left corner (min_x, max_y), whose pixel size is (res, -res), whose
   * no-data value is -9999, and whose band has one row per y coordinate and one column per x.
   */
  ghost predicate WellFormed(out: (string, Raster), srid: int, tempStem: string, bounds: Bounds, resolution: real)
    requires resolution != 0.0
  {
    var (path, raster) := out;
    && path == tempStem + TifSuffix
    && EndsWith(path, TifSuffix)
    && raster.width == ArangeLength(bounds.minX, bounds.maxX, resolution)
    && raster.height == ArangeLength(bounds.minY, bounds.maxY, resolution)
    && raster.srid == srid
    && raster.origin == Point(bounds.minX, bounds.maxY)
    && raster.scale == (resolution, -resolution)
    && raster.nodata == NoData
    && |raster.band| == raster.height
    && (forall i :: 0 <= i < raster.height ==> |raster.band[i]| == raster.width)
  }

  /** Every cell of the band holds the IDW value of all samples at that cell's mesh point. */
  ghost predicate IdwRaster(raster: Raster, inputPoints: seq<InputPoint>, values: string, bounds: Bounds,
                            resolution: real, dist: (Point, Point) -> real)
    requires resolution != 0.0 && NonNegativeDistance(dist)
  {
    var xs := Arange(bounds.minX, bounds.maxX, resolution);
    var ys := Arange(bounds.minY, bounds.maxY, resolution);
    && HasValue(inputPoints, values)
    && |raster.band| == |ys|
    && (forall i :: 0 <= i < |ys| ==> |raster.band[i]| == |xs|)
    && (inputPoints != [] ==>
          forall i, j :: 0 <= i < |ys| && 0 <= j < |xs| ==>
            raster.band[i][j] == IdwCell(xs, ys, i, j, Points(inputPoints), Values(inputPoints, values), dist))
  }

  /** The band is the RBF interpolant with the given kernel, evaluated at every mesh point. */
  ghost predicate RbfRaster(raster: Raster, kernel: Kernel, inputPoints: seq<InputPoint>, values: string,
                            bounds: Bounds, resolution: real, rbf: (Kernel, seq<Point>, seq<real>, Point) -> real)
    requires resolution != 0.0
  {
    && HasValue(inputPoints, values)
    && raster.band == RbfGrid(kernel, Arange(bounds.minX, bounds.maxX, resolution),
                              Arange(bounds.minY, bounds.maxY, resolution),
                              Points(inputPoints), Values(inputPoints, values), rbf)
  }

  /**
   * `interpolate_raster` of core/rasterOperations.py: a resolution that is not positive is refused
   * before anything else; an unknown method never yields a raster.
   */
  method InterpolateRaster(dist: (Point, Point) -> real, rbf: (Kernel, seq<Point>, seq<real>, Point) -> real,
                           srid: int, tempStem: string, inputPoints: seq<InputPoint>, values: string,
                           bounds: Bounds, resolution: real, methodName: string := "linear")
    returns (r: Result<(string, Raster), RasterError>)
    requires NonNegativeDistance(dist)
    ensures resolution <= 0.0 ==> r == Err(NonPositiveResolution)
    ensures resolution > 0.0 && !HasValue(inputPoints, values) ==> r == Err(MissingValue(values))
    ensures resolution > 0.0 && HasValue(inputPoints, values) && !KnownMethod(methodName) ==>
              r == Err(UnknownMethod(methodName))
    ensures resolution > 0.0 && HasValue(inputPoints, values) && RbfMethod(methodName) ==>
              (r.Ok? <==> RbfSolvable(Points(inputPoints)))
    ensures resolution > 0.0 && HasValue(inputPoints, values) && RbfMethod(methodName) && !RbfSolvable(Points(inputPoints)) ==>
              r == Err(UnsolvableRbf)
    ensures r.Err? && resolution > 0.0 ==>
              || !HasValue(inputPoints, values) || !KnownMethod(methodName)
              || (methodName == "idw" && inputPoints == [])
              || (RbfMethod(methodName) && !RbfSolvable(Points(inputPoints)))
    ensures r.Ok? ==> resolution > 0.0 && HasValue(inputPoints, values) && KnownMethod(methodName)
    ensures r.Ok? ==> WellFormed(r.value, srid, tempStem, bounds, resolution)
    ensures r.Ok? && methodName == "idw" ==> IdwRaster(r.value.1, inputPoints, values, bounds, resolution, dist)
    ensures r.Ok? && methodName == "linear" ==> RbfRaster(r.value.1, Linear, inputPoints, values, bounds, resolution, rbf)
    ensures r.Ok? && methodName == "kriging" ==> RbfRaster(r.value.1, Gaussian, inputPoints, values, bounds, resolution, rbf)
  {
    if resolution <= 0.0 {
      return Err(NonPositiveResolution);
    }
    r := BuildRaster(dist, rbf, srid, tempStem, inputPoints, values, bounds, resolution, methodName);
  }

  /**
   * Every cell of an IDW raster lies between the smallest and the largest sample value.
   */
  lemma IdwRasterWithinSampleRange(raster: Raster, inputPoints: seq<InputPoint>, values: string,
                                   bounds: Bounds, resolution: real, dist: (Point, Point) -> real,
                                   i: nat, j: nat)
    requires resolution != 0.0 && NonNegativeDistance(dist)
    requires IdwRaster(raster, inputPoints, values, bounds, resolution, dist) && inputPoints != []
    requires i < |raster.band| && j < |raster.band[i]|
    ensures Idw.Min(Values(inputPoints, values)) <= raster.band[i][j] <= Idw.Max(Values(inputPoints, values))
  {
    var xs := Arange(bounds.minX, bounds.maxX, resolution);
    var ys := Arange(bounds.minY, bounds.maxY, resolution);
    var vals := Values(inputPoints, values);
    Idw.IdwWithinSampleRange(Distances(MeshPoint(xs, ys, i, j), Points(inputPoints), dist), vals);
  }

  // ---- where cells are sampled and where they are placed ----

  /**
   * The ground a cell (i, j) covers once the raster has origin (minX, maxY) and pixel scale
   * (res, -res): column j spans x from minX + j res to minX + (j + 1) res, row i spans y from
   * maxY - (i + 1) res down from maxY - i res.
   */
  ghost predicate InFootprint(p: Point, bounds: Bounds, res: real, i: nat, j: nat)
  {
    && bounds.minX + j as real * res <= p.x <= bounds.minX + (j + 1) as real * res
    && bounds.maxY - (i + 1) as real * res <= p.y <= bounds.maxY - i as real * res
  }

  /**
   * As written, the grid rows are counted up from minY while the raster places row 0 at maxY.
   * With two rows or more, row 0 is sampled at minY, outside the top row it is written to and
   * inside the bottom row's footprint: the image is upside down.
   */
  lemma RowsSampledUpsideDown(bounds: Bounds, res: real)
    requires res > 0.0
    requires ArangeLength(bounds.minX, bounds.maxX, res) >= 1 && ArangeLength(bounds.minY, bounds.maxY, res) >= 2
    ensures var xs := Arange(bounds.minX, bounds.maxX, res);
            var ys := Arange(bounds.minY, bounds.maxY, res);
            var bottom := |ys| - 1;
            && !InFootprint(MeshPoint(xs, ys, 0, 0), bounds, res, 0, 0)
            && InFootprint(MeshPoint(xs, ys, 0, 0), bounds, res, bottom, 0)
  {
    var h := ArangeLength(bounds.minY, bounds.maxY, res);
    ArangeLengthCounts(bounds.minY, bounds.maxY, res, 1);
    ArangeLengthCounts(bounds.minY, bounds.maxY, res, h - 1);
    ArangeLengthCounts(bounds.minY, bounds.maxY, res, h);
    assert bounds.minY + (h - 1) as real * res < bounds.maxY;
    assert bounds.minY + h as real * res >= bounds.maxY;
  }

  /** The sample point of cell (i, j) that the raster's placement calls for: its top-left corner. */
  function NorthUpSample(bounds: Bounds, res: real, i: nat, j: nat): (p: Point)
    requires res > 0.0
    ensures InFootprint(p, bounds, res, i, j)
  {
    assert (j + 1) as real * res == j as real * res + res;
    assert (i + 1) as real * res == i as real * res + res;
    Point(bounds.minX + j as real * res, bounds.maxY - i as real * res)
  }

  /** Columns already agree: the mesh samples column j at the left edge of column j. */
  lemma ColumnsSampledInPlace(bounds: Bounds, res: real, i: nat, j: nat)
    requires res > 0.0
    requires i < ArangeLength(bounds.minY, bounds.maxY, res) && j < ArangeLength(bounds.minX, bounds.maxX, res)
    ensures MeshPoint(Arange(bounds.minX, bounds.maxX, res), Arange(bounds.minY, bounds.maxY, res), i, j).x ==
            NorthUpSample(bounds, res, i, j).x
  {
  }

  // ---- get_raster_field_name ----

  /** A field of a model's `_meta`: its name, and whether it is a RasterField. */
  datatype Field = Field(name: string, isRaster: bool)

  datatype ExportError =
    | NoRasterField(model: string)              // ValueError from get_raster_field_name
    | NoRasterData(modelKey: string, id: int)   // ValueError: no row, or a NULL raster
    | BadModelKey(modelKey: string)             // ValueError: model_key does not split into two labels
    | NoNameAttribute                           // AttributeError: the instance has no `name`

  /** Returns the name of the first RasterField among the model's fields. */
  method GetRasterFieldName(modelName: string, fields: seq<Field>) returns (r: Result<string, ExportError>)
    ensures r.Ok? <==> exists k :: 0 <= k < |fields| && fields[k].isRaster
    ensures r.Ok? ==> exists k :: 0 <= k < |fields| && fields[k].isRaster && fields[k].name == r.value &&
                                 forall j :: 0 <= j < k ==> !fields[j].isRaster
    ensures r.Err? ==> r.error == NoRasterField(modelName)
  {
    for k := 0 to |fields|
      invariant forall j :: 0 <= j < k ==> !fields[j].isRaster
    {
      if fields[k].isRaster {
        return Ok(fields[k].name);
      }
    }
    return Err(NoRasterField(modelName));
  }

  // ---- export_raster_to_cog: paths ----

  /** `COG_DIRECTORY/<app_label>/<model_name>/id_<instance.name>.tif`, with the two labels split from `model_key`. */
  function CogPath(cogDir: string, modelKey: string, instanceName: string): Result<string, ExportError>
  {
    var parts := Split(modelKey, '.');
    if |parts| != 2 then Err(BadModelKey(modelKey))
    else Ok(JoinPath(JoinPath(JoinPath(cogDir, parts[0]), parts[1]), "id_" + instanceName + TifSuffix))
  }

  /** A model key yields a path exactly when it holds one dot; the path then ends in '.tif'. */
  lemma CogPathDefined(cogDir: string, modelKey: string, instanceName: string)
    ensures CogPath(cogDir, modelKey, instanceName).Ok? <==> Count(modelKey, '.') == 1
    ensures CogPath(cogDir, modelKey, instanceName).Ok? ==>
              EndsWith(CogPath(cogDir, modelKey, instanceName).value, TifSuffix)
  {
    SplitCount(modelKey, '.');
    var parts := Split(modelKey, '.');
    if |parts| == 2 {
      var file := "id_" + instanceName + TifSuffix;
      JoinPathEndsWith(JoinPath(JoinPath(cogDir, parts[0]), parts[1]), file);
      assert EndsWith(file, TifSuffix) by {
        assert file[|file| - |TifSuffix|..] == TifSuffix;
      }
      EndsWithTrans(JoinPath(JoinPath(JoinPath(cogDir, parts[0]), parts[1]), file), file, TifSuffix);
    }
  }

  /** The app label and model name a path is built from give back the model key when joined with the dot. */
  lemma CogPathLabelsRoundTrip(modelKey: string)
    requires Count(modelKey, '.') == 1
    ensures |Split(modelKey, '.')| == 2
    ensures Split(modelKey, '.')[0] + "." + Split(modelKey, '.')[1] == modelKey
  {
    SplitCount(modelKey, '.');
    SplitJoin(modelKey, '.');
    var parts := Split(modelKey, '.');
    assert Join(parts[1..], '.') == parts[1];
  }

  /**
   * For a COG directory that does not end in '/', and labels that are not empty and neither start
   * nor end with '/', the path is laid out as directory, app label, model name and file, separated by '/'.
   */
  lemma CogPathLayout(cogDir: string, modelKey: string, instanceName: string, app: string, model: string)
    requires cogDir != [] && cogDir[|cogDir| - 1] != '/'
    requires modelKey == app + "." + model && '.' !in app && '.' !in model
    requires app != [] && app[0] != '/' && app[|app| - 1] != '/'
    requires model != [] && model[0] != '/' && model[|model| - 1] != '/'
    ensures CogPath(cogDir, modelKey, instanceName) ==
              Ok(cogDir + "/" + app + "/" + model + "/" + "id_" + instanceName + ".tif")
  {
    assert modelKey[..|app|] == app;
    assert modelKey[|app|] == '.';
    IndexOfAt(modelKey, '.', |app|);
    assert modelKey[|app| + 1..] == model;
    assert Split(model, '.') == [model];
    assert Split(modelKey, '.') == [app] + [model];
    var d1 := JoinPath(cogDir, app);
    assert d1 == cogDir + "/" + app;
    var d2 := JoinPath(d1, model);
    assert d1[|d1| - 1] == app[|app| - 1];
    assert d2 == cogDir + "/" + app + "/" + model;
    assert d2[|d2| - 1] == model[|model| - 1];
    var file := "id_" + instanceName + TifSuffix;
    assert file[0] == 'i';
    assert JoinPath(d2, file) == d2 + "/" + file;
    assert CogPath(cogDir, modelKey, instanceName) == Ok(JoinPath(d2, file));
    assert d2 + "/" + file == cogDir + "/" + app + "/" + model + "/" + "id_" + instanceName + ".tif";
  }

  lemma IndexOfAt(s: string, c: char, i: nat)
    requires i < |s| && s[i] == c && c !in s[..i]
    ensures c in s && IndexOf(s, c) == i
  {
    if i > 0 {
      assert s[0] in s[..i];
      assert s[1..][..i - 1] == s[..i][1..];
      IndexOfAt(s[1..], c, i - 1);
    }
  }

  /**
   * `export_raster_to_cog` up to the conversion: finds the raster field, requires a row whose
   * raster is not NULL, splits the model key and builds the target path from the instance's name.
   * `row` is what the PostGIS query fetched: no row, a NULL raster, or the GeoTIFF bytes.
   */
  method ExportRasterToCog(cogDir: string, modelKey: string, modelName: string, fields: seq<Field>,
                           instanceId: int, instanceName: Option<string>, row: Option<Option<seq<bv8>>>)
    returns (r: Result<string, ExportError>)
    ensures !(exists k :: 0 <= k < |fields| && fields[k].isRaster) ==> r == Err(NoRasterField(modelName))
    ensures (exists k :: 0 <= k < |fields| && fields[k].isRaster) && (row.None? || row.value.None?) ==>
              r == Err(NoRasterData(modelKey, instanceId))
    ensures r.Ok? <==> (exists k :: 0 <= k < |fields| && fields[k].isRaster) && row.Some? && row.value.Some?
                       && Count(modelKey, '.') == 1 && instanceName.Some?
    ensures r.Ok? ==> r == CogPath(cogDir, modelKey, instanceName.value)
  {
    var fieldName := GetRasterFieldName(modelName, fields);
    if fieldName.Err? {
      return Err(fieldName.error);
    }
    if row.None? || row.value.None? {
      return Err(NoRasterData(modelKey, instanceId));
    }
    var parts := Split(modelKey, '.');
    SplitCount(modelKey, '.');
    if |parts| != 2 {
      return Err(BadModelKey(modelKey));
    }
    if instanceName.None? {
      return Err(NoNameAttribute);
    }
    r := CogPath(cogDir, modelKey, instanceName.value);
  }
}

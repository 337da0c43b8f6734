/**
 * weather/models.py: the simplified mean radiant temperature formula of `TmrtRaster` and the
 * selection and bookkeeping of `TmrtRaster.generate_from_measurements`.
 *
 * Times are whole seconds. A geometry is represented by its extent `(min_x, min_y, max_x, max_y)`,
 * the only thing the method reads from it. The rasterisation step is an input: `interpolated` is
 * the GeoTIFF that interpolating the station data produced.
 */
module WeatherModels {
  import opened Wrappers
  import opened RasterCore

  /** The half-width of the measurement window, `timedelta(hours=1)`. */
  const OneHour: int := 3600

  datatype Station = Station(id: nat, name: string, geom: Point, isActive: bool)

  datatype Measurement = Measurement(station: Station, dateTime: int, temperature: Option<real>,
                                     solarRadiation: Option<real>, windSpeed: Option<real>)

  /** One `station_data` entry: the station's coordinates and its Tmrt value (None when the temperature is missing). */
  datatype StationDatum = StationDatum(x: real, y: real, value: Option<real>)

  /** The `metadata` JSON written by `generate_from_measurements`. */
  datatype Metadata = Metadata(numStations: nat, measurementTime: int, bounds: Bounds)

  datatype WeatherError = NoMeasurementsNear(time: int)

  /**
   * `_calculate_tmrt`: T + S / 100 - 0.5 W when all three inputs are present, otherwise the
   * temperature as given (so the result is missing exactly when the temperature is).
   */
  function CalculateTmrt(temperature: Option<real>, solarRadiation: Option<real>, windSpeed: Option<real>): (r: Option<real>)
    ensures r.None? <==> temperature.None?
    ensures (temperature.None? || solarRadiation.None? || windSpeed.None?) ==> r == temperature
  {
    if temperature.None? || solarRadiation.None? || windSpeed.None? then temperature
    else Some(temperature.value + solarRadiation.value / 100.0 - windSpeed.value * 0.5)
  }

  /** With all inputs present, Tmrt equals the air temperature exactly when S = 50 W, and exceeds it exactly when S > 50 W. */
  lemma TmrtAgainstAirTemperature(t: real, s: real, w: real)
    ensures CalculateTmrt(Some(t), Some(s), Some(w)) == Some(t) <==> s == 50.0 * w
    ensures CalculateTmrt(Some(t), Some(s), Some(w)).value > t <==> s > 50.0 * w
  {
  }

  /** More sunshine never lowers Tmrt; more wind never raises it. */
  lemma TmrtMonotone(t: real, s1: real, s2: real, w1: real, w2: real)
    requires s1 <= s2 && w2 <= w1
    ensures CalculateTmrt(Some(t), Some(s1), Some(w1)).value <= CalculateTmrt(Some(t), Some(s2), Some(w2)).value
  {
  }

  /** The filter of the query: an active station, and a time within one hour either side (inclusive). */
  predicate InWindow(m: Measurement, time: int)
  {
    m.station.isActive && time - OneHour <= m.dateTime <= time + OneHour
  }

  /** The measurements the query returns, in the order they are given. */
  function SelectMeasurements(ms: seq<Measurement>, time: int): (r: seq<Measurement>)
    ensures |r| <= |ms|
    ensures forall m :: m in r <==> m in ms && InWindow(m, time)
  {
    if ms == [] then []
    else (if InWindow(ms[0], time) then [ms[0]] else []) + SelectMeasurements(ms[1..], time)
  }

  /** The `station_data` entry for one measurement. */
  function Datum(m: Measurement): StationDatum
  {
    StationDatum(m.station.geom.x, m.station.geom.y, CalculateTmrt(m.temperature, m.solarRadiation, m.windSpeed))
  }

  function StationIds(ms: seq<Measurement>): (ids: set<nat>)
    ensures forall k :: 0 <= k < |ms| ==> ms[k].station.id in ids
    ensures forall id :: id in ids ==> exists k :: 0 <= k < |ms| && ms[k].station.id == id
  {
    set k | 0 <= k < |ms| :: ms[k].station.id
  }

  /**
   * The bounds priority: the explicit geometry, else the region's, else the raster's own bounds,
   * else the 1 km-buffered hull of the active stations.
   */
  function ChooseBounds(boundsGeom: Option<Bounds>, region: Option<Bounds>, own: Option<Bounds>, hull: Bounds): Bounds
  {
    if boundsGeom.Some? then boundsGeom.value
    else if region.Some? then region.value
    else if own.Some? then own.value
    else hull
  }

  /** The loop of `generate_from_measurements`: one station-data entry and one station per measurement, in order. */
  method CollectStationData(selected: seq<Measurement>) returns (stationData: seq<StationDatum>, stationsUsed: seq<Station>)
    ensures |stationData| == |selected| && |stationsUsed| == |selected|
    ensures forall j :: 0 <= j < |selected| ==> stationData[j] == Datum(selected[j])
    ensures forall j :: 0 <= j < |selected| ==> stationsUsed[j] == selected[j].station
  {
    stationData, stationsUsed := [], [];
    for k := 0 to |selected|
      invariant |stationData| == k && |stationsUsed| == k
      invariant forall j :: 0 <= j < k ==> stationData[j] == Datum(selected[j])
      invariant forall j :: 0 <= j < k ==> stationsUsed[j] == selected[j].station
    {
      var m := selected[k];
      var tmrt := CalculateTmrt(m.temperature, m.solarRadiation, m.windSpeed);
      stationData := stationData + [StationDatum(m.station.geom.x, m.station.geom.y, tmrt)];
      stationsUsed := stationsUsed + [m.station];
    }
  }

  class TmrtRaster {
    var name: string
    var dateTime: int
    /** The extent of the linked region's geometry, when a region is linked. */
    var region: Option<Bounds>
    /** The extent of the `bounds` polygon, when one is stored. */
    var bounds: Option<Bounds>
    var resolutionM: real
    var interpolationMethod: string
    var metadata: Option<Metadata>
    var raster: Option<seq<bv8>>
    var sourceStations: set<nat>

    /** A new row: resolution 10 m, method 'idw', empty metadata, no raster and no stations. */
    constructor (name: string, dateTime: int, region: Option<Bounds>, bounds: Option<Bounds>)
      ensures this.name == name && this.dateTime == dateTime && this.region == region && this.bounds == bounds
      ensures resolutionM == 10.0 && interpolationMethod == "idw"
      ensures metadata.None? && raster.None? && sourceStations == {}
    {
      this.name := name;
      this.dateTime := dateTime;
      this.region := region;
      this.bounds := bounds;
      resolutionM := 10.0;
      interpolationMethod := "idw";
      metadata := None;
      raster := None;
      sourceStations := {};
    }

    /**
     * `generate_from_measurements`: selects the measurements of active stations within one hour of
     * the requested time (by default the raster's own), fails when there are none, builds one
     * station-data entry per measurement, picks the bounds, and records raster, resolution, method,
     * metadata and stations. Returns the station data handed to the interpolator.
     * `activeHull` is the extent of the buffered hull of all active stations.
     */
    method GenerateFromMeasurements(measurements: seq<Measurement>, activeHull: Bounds, interpolated: seq<bv8>,
                                    measurementDateTime: Option<int> := None, boundsGeom: Option<Bounds> := None,
                                    resolution: real := 10.0, methodName: string := "idw")
      returns (r: Result<seq<StationDatum>, WeatherError>)
      modifies this
      ensures var time := if measurementDateTime.Some? then measurementDateTime.value else old(dateTime);
              var selected := SelectMeasurements(measurements, time);
              && (selected == [] ==> r == Err(NoMeasurementsNear(time)) && unchanged(this))
              && (selected != [] ==>
                    && r.Ok?
                    && |r.value| == |selected|
                    && (forall k :: 0 <= k < |selected| ==> r.value[k] == Datum(selected[k]))
                    && var chosen := ChooseBounds(boundsGeom, old(region), old(bounds), activeHull);
                       && bounds == (if boundsGeom.None? && old(region).None? && old(bounds).None?
                                     then Some(activeHull) else old(bounds))
                       && raster == Some(interpolated)
                       && resolutionM == resolution
                       && interpolationMethod == methodName
                       && metadata == Some(Metadata(|r.value|, time, chosen))
                       && sourceStations == StationIds(selected)
                       && name == old(name) && dateTime == old(dateTime) && region == old(region))
    {
      var time := if measurementDateTime.Some? then measurementDateTime.value else dateTime;
      var selected := SelectMeasurements(measurements, time);
      if selected == [] {
        return Err(NoMeasurementsNear(time));
      }
      var stationData, stationsUsed := CollectStationData(selected);
      var chosen := ChooseBounds(boundsGeom, region, bounds, activeHull);
      if boundsGeom.None? && region.None? && bounds.None? {
        bounds := Some(activeHull);
      }
      raster := Some(interpolated);
      resolutionM := resolution;
      interpolationMethod := methodName;
      metadata := Some(Metadata(|stationData|, time, chosen));
      sourceStations := set s | s in stationsUsed :: s.id;
      UsedStationIds(selected, stationsUsed);
      r := Ok(stationData);
    }
  }

  /** The ids of the stations recorded for the selected measurements are the selection's station ids. */
  lemma UsedStationIds(selected: seq<Measurement>, used: seq<Station>)
    requires |used| == |selected|
    requires forall j :: 0 <= j < |selected| ==> used[j] == selected[j].station
    ensures (set s | s in used :: s.id) == StationIds(selected)
  {
    forall id
      ensures id in (set s | s in used :: s.id) <==> id in StationIds(selected)
    {
      if id in StationIds(selected) {
        var k :| 0 <= k < |selected| && selected[k].station.id == id;
        assert used[k] in used;
      }
    }
  }

  /** Every measurement that contributes lies within one hour of the requested time and comes from an active station. */
  lemma SelectedAreNearAndActive(ms: seq<Measurement>, time: int, k: nat)
    requires k < |SelectMeasurements(ms, time)|
    ensures SelectMeasurements(ms, time)[k].station.isActive
    ensures time - OneHour <= SelectMeasurements(ms, time)[k].dateTime <= time + OneHour
  {
    assert SelectMeasurements(ms, time)[k] in SelectMeasurements(ms, time);
  }

  /** Selection keeps the given order and drops nothing in the window: selecting twice changes nothing. */
  lemma {:induction false} SelectIdempotent(ms: seq<Measurement>, time: int)
    ensures SelectMeasurements(SelectMeasurements(ms, time), time) == SelectMeasurements(ms, time)
  {
    if ms != [] {
      SelectIdempotent(ms[1..], time);
      var head := if InWindow(ms[0], time) then [ms[0]] else [];
      var rest := SelectMeasurements(ms[1..], time);
      SelectAppend(head, rest, time);
      assert SelectMeasurements(head, time) == head by {
        if head != [] {
          assert head[1..] == [];
        }
      }
    }
  }

  lemma {:induction false} SelectAppend(a: seq<Measurement>, b: seq<Measurement>, time: int)
    ensures SelectMeasurements(a + b, time) == SelectMeasurements(a, time) + SelectMeasurements(b, time)
  {
    if a == [] {
      assert a + b == b;
    } else {
      assert (a + b)[0] == a[0] && (a + b)[1..] == a[1..] + b;
      SelectAppend(a[1..], b, time);
    }
  }
}

/**
 * The neighbourhood roll-up handler of common/signals.py. After a Neighborhood is saved or deleted,
 * the handler rewrites its City's population, density and timestamp, then does the same for the
 * City's Region from the cities as they now stand. The three tables are sequences of rows held by
 * a `Database` object; the clock is a parameter. Ids start at 1, so an id of 0 stands for a
 * missing one.
 */
module CommonSignals {
  import opened Wrappers
  import opened CommonModels

  datatype NeighbourhoodRow = NeighbourhoodRow(id: nat, city: nat, population: int)
  datatype CityRow = CityRow(id: nat, region: nat, population: int, areaKm2: real, density: Option<real>, lastUpdated: int)
  datatype RegionRow = RegionRow(id: nat, population: int, areaKm2: real, density: Option<real>, lastUpdated: int)

  /** `_safe_divide_expr`: the value over the row's area when the area is positive, else null. */
  function SafeDivide(numerator: int, areaKm2: real): (d: Option<real>)
    ensures d == Density(numerator, areaKm2)
    ensures d.Some? <==> areaKm2 > 0.0
  {
    if areaKm2 > 0.0 then Some(numerator as real / areaKm2) else None
  }

  /** The populations of the neighbourhoods of one city, in table order. */
  function NeighbourhoodPopulations(ns: seq<NeighbourhoodRow>, cityId: nat): seq<int>
  {
    if ns == [] then []
    else (if ns[0].city == cityId then [ns[0].population] else []) + NeighbourhoodPopulations(ns[1..], cityId)
  }

  /** The populations of the cities of one region, in table order. */
  function CityPopulations(cs: seq<CityRow>, regionId: nat): seq<int>
  {
    if cs == [] then []
    else (if cs[0].region == regionId then [cs[0].population] else []) + CityPopulations(cs[1..], regionId)
  }

  /** `values_list('region_id').first()` over the rows with this id. */
  function RegionOf(cs: seq<CityRow>, cityId: nat): (r: Option<nat>)
    ensures r.Some? <==> exists k :: 0 <= k < |cs| && cs[k].id == cityId
  {
    if cs == [] then None
    else if cs[0].id == cityId then Some(cs[0].region)
    else
      var r := RegionOf(cs[1..], cityId);
      assert r.Some? ==> exists k :: 0 <= k < |cs| && cs[k].id == cityId by {
        if r.Some? {
          var k :| 0 <= k < |cs[1..]| && cs[1..][k].id == cityId;
          assert cs[k + 1].id == cityId;
        }
      }
      r
  }

  function RecountedCity(c: CityRow, cityId: nat, total: int, now: int): CityRow
  {
    if c.id == cityId then c.(population := total, density := SafeDivide(total, c.areaKm2), lastUpdated := now) else c
  }

  function RecountedRegion(r: RegionRow, regionId: nat, total: int, now: int): RegionRow
  {
    if r.id == regionId then r.(population := total, density := SafeDivide(total, r.areaKm2), lastUpdated := now) else r
  }

  function RecountCities(cs: seq<CityRow>, cityId: nat, total: int, now: int): (out: seq<CityRow>)
    ensures |out| == |cs|
    ensures forall k :: 0 <= k < |cs| ==> out[k] == RecountedCity(cs[k], cityId, total, now)
  {
    seq(|cs|, k requires 0 <= k < |cs| => RecountedCity(cs[k], cityId, total, now))
  }

  function RecountRegions(rs: seq<RegionRow>, regionId: nat, total: int, now: int): (out: seq<RegionRow>)
    ensures |out| == |rs|
    ensures forall k :: 0 <= k < |rs| ==> out[k] == RecountedRegion(rs[k], regionId, total, now)
  {
    seq(|rs|, k requires 0 <= k < |rs| => RecountedRegion(rs[k], regionId, total, now))
  }

  /** Ids identify rows. */
  ghost predicate UniqueCityIds(cs: seq<CityRow>)
  {
    forall i, j :: 0 <= i < j < |cs| ==> cs[i].id != cs[j].id
  }

  /**
   * Replacing one city's population changes its region's total by the difference and leaves
   * every other region's total alone.
   */
  lemma {:induction false} RecountShiftsRegionTotal(cs: seq<CityRow>, i: nat, total: int, now: int, regionId: nat)
    requires UniqueCityIds(cs) && i < |cs|
    ensures TotalPopulation(CityPopulations(RecountCities(cs, cs[i].id, total, now), regionId)) ==
            TotalPopulation(CityPopulations(cs, regionId)) +
            (if cs[i].region == regionId then total - cs[i].population else 0)
  {
    var out := RecountCities(cs, cs[i].id, total, now);
    if i == 0 {
      assert out[1..] == cs[1..] by {
        forall k | 0 <= k < |cs| - 1 ensures out[1..][k] == cs[1..][k] {
          assert cs[k + 1].id != cs[0].id;
        }
      }
    } else {
      var tail := cs[1..];
      assert UniqueCityIds(tail);
      assert tail[i - 1] == cs[i];
      assert out[1..] == RecountCities(tail, cs[i].id, total, now);
      assert cs[0].id != cs[i].id;
      RecountShiftsRegionTotal(tail, i - 1, total, now, regionId);
    }
    TotalPopulationAppend(if out[0].region == regionId then [out[0].population] else [], CityPopulations(out[1..], regionId));
    TotalPopulationAppend(if cs[0].region == regionId then [cs[0].population] else [], CityPopulations(cs[1..], regionId));
  }

  class Database {
    var neighbourhoods: seq<NeighbourhoodRow>
    var cities: seq<CityRow>
    var regions: seq<RegionRow>

    constructor (neighbourhoods: seq<NeighbourhoodRow>, cities: seq<CityRow>, regions: seq<RegionRow>)
      ensures this.neighbourhoods == neighbourhoods && this.cities == cities && this.regions == regions
    {
      this.neighbourhoods, this.cities, this.regions := neighbourhoods, cities, regions;
    }

    /**
     * `neighborhood_changed_update_city_and_region` for a neighbourhood of city `cityId`
     * (the table already reflects the save or delete).
     */
    method OnNeighbourhoodChanged(cityId: nat, now: int)
      modifies this
      ensures neighbourhoods == old(neighbourhoods)
      ensures cityId == 0 ==> cities == old(cities) && regions == old(regions)
      ensures cityId != 0 ==>
                cities == RecountCities(old(cities), cityId, TotalPopulation(NeighbourhoodPopulations(neighbourhoods, cityId)), now)
      ensures cityId != 0 ==>
                var regionId := RegionOf(cities, cityId);
                if regionId.Some? && regionId.value != 0 then
                  regions == RecountRegions(old(regions), regionId.value, TotalPopulation(CityPopulations(cities, regionId.value)), now)
                else regions == old(regions)
    {
      if cityId == 0 {
        return;
      }
      var cityTotal := TotalPopulation(NeighbourhoodPopulations(neighbourhoods, cityId));
      cities := RecountCities(cities, cityId, cityTotal, now);
      var regionId := RegionOf(cities, cityId);
      if regionId.Some? && regionId.value != 0 {
        var regionTotal := TotalPopulation(CityPopulations(cities, regionId.value));
        regions := RecountRegions(regions, regionId.value, regionTotal, now);
      }
    }
  }

  /**
   * After the handler, the changed city holds the total of its neighbourhoods, and its region
   * holds its former total shifted by the city's change.
   */
  lemma HandlerRollsUp(ns: seq<NeighbourhoodRow>, cs: seq<CityRow>, i: nat, now: int)
    requires UniqueCityIds(cs) && i < |cs| && cs[i].id != 0
    ensures var total := TotalPopulation(NeighbourhoodPopulations(ns, cs[i].id));
            var after := RecountCities(cs, cs[i].id, total, now);
            && after[i].population == total
            && after[i].density == Density(total, cs[i].areaKm2)
            && RegionOf(after, cs[i].id) == Some(cs[i].region)
            && TotalPopulation(CityPopulations(after, cs[i].region)) ==
               TotalPopulation(CityPopulations(cs, cs[i].region)) - cs[i].population + total
  {
    var total := TotalPopulation(NeighbourhoodPopulations(ns, cs[i].id));
    var after := RecountCities(cs, cs[i].id, total, now);
    RecountShiftsRegionTotal(cs, i, total, now, cs[i].region);
    RegionOfUnique(after, i);
  }

  lemma {:induction false} RegionOfUnique(cs: seq<CityRow>, i: nat)
    requires UniqueCityIds(cs) && i < |cs|
    ensures RegionOf(cs, cs[i].id) == Some(cs[i].region)
  {
    if i > 0 {
      assert cs[0].id != cs[i].id;
      assert UniqueCityIds(cs[1..]) && cs[1..][i - 1] == cs[i];
      RegionOfUnique(cs[1..], i - 1);
    }
  }
}
